/** The test barrier: an orchestrator, two writing clients and a reading sink over UDP datagrams. */
module Concert {

  import opened Options

  datatype Id = SINK | NODE_A | NODE_B

  datatype Kind = RESET | REGISTRATION | TRIGGER | READY | ACK | GO | DONE

  /** A datagram in flight, in either direction. */
  datatype Pigeon = ToParticipant(peer: Id, kind: Kind) | ToOrchestrator(peer: Id, kind: Kind)

  /** The bit mask of participants the source keeps in an int. */
  datatype Mask = Mask(sink: bool, a: bool, b: bool)

  const NOBODY := Mask(false, false, false)
  const ALL := Mask(true, true, true)
  const WRITERS := Mask(false, true, true)
  const ONLY_SINK := Mask(true, false, false)

  predicate Has(m: Mask, id: Id) {
    match id case SINK => m.sink case NODE_A => m.a case NODE_B => m.b
  }

  function With(m: Mask, id: Id): Mask {
    match id case SINK => m.(sink := true) case NODE_A => m.(a := true) case NODE_B => m.(b := true)
  }

  function Without(m: Mask, id: Id): Mask {
    match id case SINK => m.(sink := false) case NODE_A => m.(a := false) case NODE_B => m.(b := false)
  }

  predicate Within(m: Mask, n: Mask) {
    (m.sink ==> n.sink) && (m.a ==> n.a) && (m.b ==> n.b)
  }

  /** Where the orchestrator is. A receive loop carries the participants it has counted; a sending
      phase carries those it has still to send to. */
  datatype Phase =
    | REGISTERING(seen: Mask)
    | ACKING(todo: Mask)
    | INIT_READY(seen: Mask)
    | TRIGGERING(todo: Mask)
    | WAIT_DONE(seen: Mask)
    | GOING
    | WAIT_SINK
    | RESETTING(todo: Mask)
    | WAIT_READY(seen: Mask)
    | FINISHED

  datatype ClientPc = START | WAIT_ACK | PREPARE | ANNOUNCE | WAIT_TRIGGER | CLOSING | REPORT | WAIT_RESET

  /** A writing client; its file is open while it has opened it more often than closed it. */
  datatype Client = Client(pc: ClientPc, triggers: nat, opens: nat, closes: nat)

  datatype SinkPc = SINK_START | SINK_WAIT_ACK | SINK_ANNOUNCE | WAIT_GO | READING | READ_DONE

  datatype Sink = Sink(pc: SinkPc, gos: nat)

  datatype World = World(phase: Phase, roundsLeft: nat, round: nat, a: Client, b: Client, sink: Sink,
    net: multiset<Pigeon>)

  datatype Step =
    | Register(id: Id) | SendReady(id: Id) | SendDone(id: Id)
    | OpenFile(id: Id) | CloseFile(id: Id) | ReadFile
    | SendAck(id: Id) | SendTrigger(id: Id) | SendGo | SendReset(id: Id)
    | OrchestratorReceives(origin: Id, kind: Kind) | ParticipantReceives(id: Id, kind: Kind)
    | Lose(pigeon: Pigeon)

  function Init(rounds: nat): World {
    World(REGISTERING(NOBODY), rounds, 0, Client(START, 0, 0, 0), Client(START, 0, 0, 0), Sink(SINK_START, 0),
      multiset{})
  }

  function ClientOf(w: World, id: Id): Client
    requires id != SINK
  {
    if id == NODE_A then w.a else w.b
  }

  // ---------------------------------------------------------------------------------------------
  // Steps
  // ---------------------------------------------------------------------------------------------

  predicate Waiting(pc: ClientPc) {
    pc == WAIT_ACK || pc == WAIT_TRIGGER || pc == WAIT_RESET
  }

  ghost predicate Enabled(w: World, step: Step) {
    match step
    case Register(id) => if id == SINK then w.sink.pc == SINK_START else id != SINK && ClientOf(w, id).pc == START
    case SendReady(id) =>
      if id == SINK then w.sink.pc == SINK_ANNOUNCE || w.sink.pc == READ_DONE
      else id != SINK && ClientOf(w, id).pc == ANNOUNCE
    case SendDone(id) => id != SINK && ClientOf(w, id).pc == REPORT
    case OpenFile(id) => id != SINK && ClientOf(w, id).pc == PREPARE
    case CloseFile(id) => id != SINK && ClientOf(w, id).pc == CLOSING
    case ReadFile => w.sink.pc == READING
    case SendAck(id) => w.phase.ACKING? && Has(w.phase.todo, id)
    case SendTrigger(id) => w.phase.TRIGGERING? && Has(w.phase.todo, id)
    case SendGo => w.phase.GOING?
    case SendReset(id) => w.phase.RESETTING? && Has(w.phase.todo, id)
    case OrchestratorReceives(origin, kind) =>
      ToOrchestrator(origin, kind) in w.net &&
      (w.phase.REGISTERING? || w.phase.INIT_READY? || w.phase.WAIT_DONE? || w.phase.WAIT_SINK? || w.phase.WAIT_READY?)
    case ParticipantReceives(id, kind) =>
      ToParticipant(id, kind) in w.net &&
      if id == SINK then w.sink.pc == SINK_WAIT_ACK || w.sink.pc == WAIT_GO
      else id != SINK && Waiting(ClientOf(w, id).pc)
    case Lose(pigeon) => pigeon in w.net
  }

  function Send(w: World, p: Pigeon): World {
    w.(net := w.net + multiset{p})
  }

  function Take(w: World, p: Pigeon): World {
    w.(net := w.net - multiset{p})
  }

  /** The head of the round loop. */
  function NextRound(w: World): World {
    if w.roundsLeft == 0 then w.(phase := FINISHED)
    else w.(phase := TRIGGERING(WRITERS), roundsLeft := w.roundsLeft - 1, round := w.round + 1)
  }

  /** One iteration of waitMsgSubset: count a matching message, ignore any other. */
  function Collect(seen: Mask, mask: Mask, awaited: Kind, origin: Id, kind: Kind): Mask {
    if kind == awaited && Has(mask, origin) then With(seen, origin) else seen
  }

  function OrchestratorReceive(w: World, origin: Id, kind: Kind): (w': World)
    ensures w'.net == w.net
  {
    match w.phase
    case REGISTERING(seen) =>
      // any datagram counts as a registration
      if With(seen, origin) == ALL then w.(phase := ACKING(ALL)) else w.(phase := REGISTERING(With(seen, origin)))
    case INIT_READY(seen) =>
      var seen' := Collect(seen, ALL, READY, origin, kind);
      if seen' == ALL then NextRound(w) else w.(phase := INIT_READY(seen'))
    case WAIT_DONE(seen) =>
      var seen' := Collect(seen, WRITERS, DONE, origin, kind);
      if seen' == WRITERS then w.(phase := GOING) else w.(phase := WAIT_DONE(seen'))
    case WAIT_SINK =>
      if Collect(NOBODY, ONLY_SINK, READY, origin, kind) == ONLY_SINK then w.(phase := RESETTING(WRITERS)) else w
    case WAIT_READY(seen) =>
      var seen' := Collect(seen, WRITERS, READY, origin, kind);
      if seen' == WRITERS then NextRound(w) else w.(phase := WAIT_READY(seen'))
    case _ => w
  }

  /** One iteration of a client's waitFor: a datagram of another kind is dropped. */
  function ClientReceive(c: Client, kind: Kind): Client {
    if c.pc == WAIT_ACK && kind == ACK then c.(pc := PREPARE)
    else if c.pc == WAIT_TRIGGER && kind == TRIGGER then c.(pc := CLOSING, triggers := c.triggers + 1)
    else if c.pc == WAIT_RESET && kind == RESET then c.(pc := PREPARE)
    else c
  }

  function SinkReceive(s: Sink, kind: Kind): Sink {
    if s.pc == SINK_WAIT_ACK && kind == ACK then s.(pc := SINK_ANNOUNCE)
    else if s.pc == WAIT_GO && kind == GO then Sink(READING, s.gos + 1)
    else s
  }

  function SetClient(w: World, id: Id, c: Client): World {
    if id == NODE_A then w.(a := c) else w.(b := c)
  }

  function Next(w: World, step: Step): World
    requires Enabled(w, step)
  {
    match step
    case Register(id) =>
      var sent :=
        if id == SINK then w.(sink := w.sink.(pc := SINK_WAIT_ACK))
        else SetClient(w, id, ClientOf(w, id).(pc := WAIT_ACK));
      Send(sent, ToOrchestrator(id, REGISTRATION))
    case SendReady(id) =>
      var sent :=
        if id == SINK then w.(sink := w.sink.(pc := WAIT_GO))
        else SetClient(w, id, ClientOf(w, id).(pc := WAIT_TRIGGER));
      Send(sent, ToOrchestrator(id, READY))
    case SendDone(id) => Send(SetClient(w, id, ClientOf(w, id).(pc := WAIT_RESET)), ToOrchestrator(id, DONE))
    case OpenFile(id) => SetClient(w, id, ClientOf(w, id).(pc := ANNOUNCE, opens := ClientOf(w, id).opens + 1))
    case CloseFile(id) => SetClient(w, id, ClientOf(w, id).(pc := REPORT, closes := ClientOf(w, id).closes + 1))
    case ReadFile => w.(sink := w.sink.(pc := READ_DONE))
    case SendAck(id) =>
      var todo := Without(w.phase.todo, id);
      Send(w.(phase := if todo == NOBODY then INIT_READY(NOBODY) else ACKING(todo)), ToParticipant(id, ACK))
    case SendTrigger(id) =>
      var todo := Without(w.phase.todo, id);
      Send(w.(phase := if todo == NOBODY then WAIT_DONE(NOBODY) else TRIGGERING(todo)), ToParticipant(id, TRIGGER))
    case SendGo => Send(w.(phase := WAIT_SINK), ToParticipant(SINK, GO))
    case SendReset(id) =>
      var todo := Without(w.phase.todo, id);
      Send(w.(phase := if todo == NOBODY then WAIT_READY(NOBODY) else RESETTING(todo)), ToParticipant(id, RESET))
    case OrchestratorReceives(origin, kind) =>
      OrchestratorReceive(Take(w, ToOrchestrator(origin, kind)), origin, kind)
    case ParticipantReceives(id, kind) =>
      var w' := Take(w, ToParticipant(id, kind));
      if id == SINK then w'.(sink := SinkReceive(w.sink, kind))
      else SetClient(w', id, ClientReceive(ClientOf(w, id), kind))
    case Lose(pigeon) => Take(w, pigeon)
  }

  // ---------------------------------------------------------------------------------------------
  // The invariant
  // ---------------------------------------------------------------------------------------------

  /** How far the orchestrator's conversation with one participant has come. */
  datatype Stage = UNKNOWN | REGISTERED | ACKED | IDLE | TRIGGERED | CLOSED | RESTARTED

  function StageOf(phase: Phase, id: Id): Stage {
    match phase
    case REGISTERING(seen) => if Has(seen, id) then REGISTERED else UNKNOWN
    case ACKING(todo) => if Has(todo, id) then REGISTERED else ACKED
    case INIT_READY(seen) => if Has(seen, id) then IDLE else ACKED
    case TRIGGERING(todo) => if id == SINK || Has(todo, id) then IDLE else TRIGGERED
    case WAIT_DONE(seen) => if id == SINK then IDLE else if Has(seen, id) then CLOSED else TRIGGERED
    case GOING => if id == SINK then IDLE else CLOSED
    case WAIT_SINK => if id == SINK then TRIGGERED else CLOSED
    case RESETTING(todo) => if id == SINK then IDLE else if Has(todo, id) then CLOSED else RESTARTED
    case WAIT_READY(seen) => if id == SINK || Has(seen, id) then IDLE else RESTARTED
    case FINISHED => IDLE
  }

  ghost predicate ClientFits(stage: Stage, pc: ClientPc) {
    match stage
    case UNKNOWN => pc == START || pc == WAIT_ACK
    case REGISTERED => pc == WAIT_ACK
    case ACKED => pc == WAIT_ACK || pc == PREPARE || pc == ANNOUNCE || pc == WAIT_TRIGGER
    case IDLE => pc == WAIT_TRIGGER
    case TRIGGERED => pc == WAIT_TRIGGER || pc == CLOSING || pc == REPORT || pc == WAIT_RESET
    case CLOSED => pc == WAIT_RESET
    case RESTARTED => pc == WAIT_RESET || pc == PREPARE || pc == ANNOUNCE || pc == WAIT_TRIGGER
  }

  /** The one datagram that can be in flight between the orchestrator and a client. */
  function ClientPigeon(stage: Stage, id: Id, pc: ClientPc): Option<Pigeon> {
    if stage == UNKNOWN && pc == WAIT_ACK then Some(ToOrchestrator(id, REGISTRATION))
    else if stage == ACKED && pc == WAIT_ACK then Some(ToParticipant(id, ACK))
    else if (stage == ACKED || stage == RESTARTED) && pc == WAIT_TRIGGER then Some(ToOrchestrator(id, READY))
    else if stage == TRIGGERED && pc == WAIT_TRIGGER then Some(ToParticipant(id, TRIGGER))
    else if stage == TRIGGERED && pc == WAIT_RESET then Some(ToOrchestrator(id, DONE))
    else if stage == RESTARTED && pc == WAIT_RESET then Some(ToParticipant(id, RESET))
    else None
  }

  ghost predicate SinkFits(stage: Stage, pc: SinkPc) {
    match stage
    case UNKNOWN => pc == SINK_START || pc == SINK_WAIT_ACK
    case REGISTERED => pc == SINK_WAIT_ACK
    case ACKED => pc == SINK_WAIT_ACK || pc == SINK_ANNOUNCE || pc == WAIT_GO
    case IDLE => pc == WAIT_GO
    case TRIGGERED => pc == WAIT_GO || pc == READING || pc == READ_DONE
    case _ => false
  }

  function SinkPigeon(stage: Stage, s: Sink, round: nat): Option<Pigeon> {
    if stage == UNKNOWN && s.pc == SINK_WAIT_ACK then Some(ToOrchestrator(SINK, REGISTRATION))
    else if stage == ACKED && s.pc == SINK_WAIT_ACK then Some(ToParticipant(SINK, ACK))
    else if stage == ACKED && s.pc == WAIT_GO then Some(ToOrchestrator(SINK, READY))
    else if stage == TRIGGERED && s.pc == WAIT_GO then
      Some(if s.gos == round then ToOrchestrator(SINK, READY) else ToParticipant(SINK, GO))
    else None
  }

  /** At most the expected datagram is in flight for `id`, and exactly it when nothing is ever lost. */
  ghost predicate NetFits(net: multiset<Pigeon>, id: Id, expected: Option<Pigeon>, lossless: bool) {
    forall p: Pigeon :: p.peer == id ==>
      var count := if expected == Some(p) then 1 else 0;
      net[p] <= count && (lossless ==> net[p] == count)
  }

  /** Rounds whose trigger the client has acted on. */
  function ClosesDue(phase: Phase, round: nat, pc: ClientPc): int {
    if phase.TRIGGERING? || phase.WAIT_DONE? then
      round - if pc == WAIT_TRIGGER || pc == CLOSING then 1 else 0
    else round
  }

  function GosDue(phase: Phase, round: nat): int {
    if phase.TRIGGERING? || phase.WAIT_DONE? || phase.GOING? then round - 1 else round
  }

  /** What the orchestrator's phase and the client's own state say about each other. */
  ghost predicate ClientLocal(phase: Phase, round: nat, id: Id, c: Client) {
    && ClientFits(StageOf(phase, id), c.pc)
    && c.closes == ClosesDue(phase, round, c.pc)
    && c.triggers == c.closes + (if c.pc == CLOSING then 1 else 0)
    && c.opens == c.closes + (if c.pc == ANNOUNCE || c.pc == WAIT_TRIGGER || c.pc == CLOSING then 1 else 0)
  }

  ghost predicate SinkLocal(phase: Phase, round: nat, sink: Sink) {
    && SinkFits(StageOf(phase, SINK), sink.pc)
    && (sink.gos == GosDue(phase, round) || (phase.WAIT_SINK? && sink.pc == WAIT_GO && sink.gos == round - 1))
  }

  ghost predicate Locals(phase: Phase, round: nat, a: Client, b: Client, sink: Sink) {
    ClientLocal(phase, round, NODE_A, a) && ClientLocal(phase, round, NODE_B, b) && SinkLocal(phase, round, sink)
  }

  function PigeonOf(w: World, id: Id): Option<Pigeon> {
    if id == SINK then SinkPigeon(StageOf(w.phase, SINK), w.sink, w.round)
    else ClientPigeon(StageOf(w.phase, id), id, ClientOf(w, id).pc)
  }

  ghost predicate PhaseInv(w: World, rounds: nat) {
    && w.round + w.roundsLeft == rounds
    && match w.phase
       case REGISTERING(seen) => w.round == 0 && seen != ALL
       case ACKING(todo) => w.round == 0 && todo != NOBODY
       case INIT_READY(seen) => w.round == 0 && seen != ALL
       case TRIGGERING(todo) => w.round > 0 && todo != NOBODY && Within(todo, WRITERS)
       case WAIT_DONE(seen) => w.round > 0 && seen != WRITERS && Within(seen, WRITERS)
       case GOING => w.round > 0
       case WAIT_SINK => w.round > 0
       case RESETTING(todo) => w.round > 0 && todo != NOBODY && Within(todo, WRITERS)
       case WAIT_READY(seen) => w.round > 0 && seen != WRITERS && Within(seen, WRITERS)
       case FINISHED => w.roundsLeft == 0
  }

  ghost predicate Local(w: World, rounds: nat) {
    PhaseInv(w, rounds) && Locals(w.phase, w.round, w.a, w.b, w.sink)
  }

  ghost predicate NetInv(w: World, lossless: bool) {
    forall id :: NetFits(w.net, id, PigeonOf(w, id), lossless)
  }

  ghost predicate Inv(w: World, rounds: nat, lossless: bool) {
    Local(w, rounds) && NetInv(w, lossless)
  }

  lemma InitInv(rounds: nat, lossless: bool)
    ensures Inv(Init(rounds), rounds, lossless)
  {
  }

  /** How the step's participant and its datagram change: a send puts one in flight where none was
      expected, a receive takes the expected one, every other participant keeps what it expects. */
  ghost predicate Peers(w: World, w': World, id: Id, before: Option<Pigeon>, after: Option<Pigeon>) {
    && PigeonOf(w, id) == before && PigeonOf(w', id) == after
    && forall q :: q != id ==> PigeonOf(w', q) == PigeonOf(w, q)
  }

  lemma NetAfterSend(w: World, w': World, id: Id, p: Pigeon, lossless: bool)
    requires NetInv(w, lossless) && p.peer == id && Peers(w, w', id, None, Some(p)) && w'.net == w.net + multiset{p}
    ensures NetInv(w', lossless)
  {
    forall q ensures NetFits(w'.net, q, PigeonOf(w', q), lossless) {
      assert NetFits(w.net, q, PigeonOf(w, q), lossless);
    }
  }

  lemma NetAfterTake(w: World, w': World, id: Id, p: Pigeon, lossless: bool)
    requires NetInv(w, lossless) && p.peer == id && Peers(w, w', id, Some(p), None) && w'.net == w.net - multiset{p}
    ensures NetInv(w', lossless)
  {
    forall q ensures NetFits(w'.net, q, PigeonOf(w', q), lossless) {
      assert NetFits(w.net, q, PigeonOf(w, q), lossless);
    }
  }

  lemma OnlyExpectedArrives(w: World, p: Pigeon, lossless: bool)
    requires NetInv(w, lossless) && p in w.net
    ensures PigeonOf(w, p.peer) == Some(p)
  {
    assert NetFits(w.net, p.peer, PigeonOf(w, p.peer), lossless);
  }

  lemma RegistrationSentLocal(w: World, id: Id, rounds: nat)
    requires Local(w, rounds) && Enabled(w, Register(id))
    ensures Local(Next(w, Register(id)), rounds)
  {
  }

  lemma RegistrationSentPeers(w: World, id: Id, rounds: nat)
    requires Local(w, rounds) && Enabled(w, Register(id))
    ensures Peers(w, Next(w, Register(id)), id, None, Some(ToOrchestrator(id, REGISTRATION)))
  {
  }

  lemma RegisterKeeps(w: World, id: Id, rounds: nat, lossless: bool)
    requires Inv(w, rounds, lossless) && Enabled(w, Register(id))
    ensures Inv(Next(w, Register(id)), rounds, lossless)
  {
    RegistrationSentLocal(w, id, rounds);
    RegistrationSentPeers(w, id, rounds);
    NetAfterSend(w, Next(w, Register(id)), id, ToOrchestrator(id, REGISTRATION), lossless);
  }

  lemma ReadySentLocal(w: World, id: Id, rounds: nat)
    requires Local(w, rounds) && Enabled(w, SendReady(id))
    ensures Local(Next(w, SendReady(id)), rounds)
  {
  }

  lemma ReadySentPeers(w: World, id: Id, rounds: nat)
    requires Local(w, rounds) && Enabled(w, SendReady(id))
    ensures Peers(w, Next(w, SendReady(id)), id, None, Some(ToOrchestrator(id, READY)))
  {
  }

  lemma SendReadyKeeps(w: World, id: Id, rounds: nat, lossless: bool)
    requires Inv(w, rounds, lossless) && Enabled(w, SendReady(id))
    ensures Inv(Next(w, SendReady(id)), rounds, lossless)
  {
    ReadySentLocal(w, id, rounds);
    ReadySentPeers(w, id, rounds);
    NetAfterSend(w, Next(w, SendReady(id)), id, ToOrchestrator(id, READY), lossless);
  }

  lemma DoneSentLocal(w: World, id: Id, rounds: nat)
    requires Local(w, rounds) && Enabled(w, SendDone(id))
    ensures Local(Next(w, SendDone(id)), rounds)
  {
  }

  lemma DoneSentPeers(w: World, id: Id, rounds: nat)
    requires Local(w, rounds) && Enabled(w, SendDone(id))
    ensures Peers(w, Next(w, SendDone(id)), id, None, Some(ToOrchestrator(id, DONE)))
  {
  }

  lemma SendDoneKeeps(w: World, id: Id, rounds: nat, lossless: bool)
    requires Inv(w, rounds, lossless) && Enabled(w, SendDone(id))
    ensures Inv(Next(w, SendDone(id)), rounds, lossless)
  {
    DoneSentLocal(w, id, rounds);
    DoneSentPeers(w, id, rounds);
    NetAfterSend(w, Next(w, SendDone(id)), id, ToOrchestrator(id, DONE), lossless);
  }

  lemma NetUntouched(w: World, w': World, lossless: bool)
    requires NetInv(w, lossless) && w'.net == w.net && forall q :: PigeonOf(w', q) == PigeonOf(w, q)
    ensures NetInv(w', lossless)
  {
    forall q ensures NetFits(w'.net, q, PigeonOf(w', q), lossless) {
      assert NetFits(w.net, q, PigeonOf(w, q), lossless);
    }
  }

  lemma OpenAlone(w: World, id: Id, rounds: nat)
    requires Local(w, rounds) && Enabled(w, OpenFile(id))
    ensures Local(Next(w, OpenFile(id)), rounds) && forall q :: PigeonOf(Next(w, OpenFile(id)), q) == PigeonOf(w, q)
  {
  }

  lemma OpenFileKeeps(w: World, id: Id, rounds: nat, lossless: bool)
    requires Inv(w, rounds, lossless) && Enabled(w, OpenFile(id))
    ensures Inv(Next(w, OpenFile(id)), rounds, lossless)
  {
    OpenAlone(w, id, rounds);
    NetUntouched(w, Next(w, OpenFile(id)), lossless);
  }

  lemma CloseAlone(w: World, id: Id, rounds: nat)
    requires Local(w, rounds) && Enabled(w, CloseFile(id))
    ensures Local(Next(w, CloseFile(id)), rounds) && forall q :: PigeonOf(Next(w, CloseFile(id)), q) == PigeonOf(w, q)
  {
  }

  lemma CloseFileKeeps(w: World, id: Id, rounds: nat, lossless: bool)
    requires Inv(w, rounds, lossless) && Enabled(w, CloseFile(id))
    ensures Inv(Next(w, CloseFile(id)), rounds, lossless)
  {
    CloseAlone(w, id, rounds);
    NetUntouched(w, Next(w, CloseFile(id)), lossless);
  }

  lemma ReadAlone(w: World, rounds: nat)
    requires Local(w, rounds) && Enabled(w, ReadFile)
    ensures Local(Next(w, ReadFile), rounds) && forall q :: PigeonOf(Next(w, ReadFile), q) == PigeonOf(w, q)
  {
  }

  lemma ReadFileKeeps(w: World, rounds: nat, lossless: bool)
    requires Inv(w, rounds, lossless) && Enabled(w, ReadFile)
    ensures Inv(Next(w, ReadFile), rounds, lossless)
  {
    ReadAlone(w, rounds);
    NetUntouched(w, Next(w, ReadFile), lossless);
  }

  lemma AckSentLocal(w: World, id: Id, rounds: nat)
    requires Local(w, rounds) && Enabled(w, SendAck(id))
    ensures Local(Next(w, SendAck(id)), rounds)
  {
  }

  lemma AckSentPeers(w: World, id: Id, rounds: nat)
    requires Local(w, rounds) && Enabled(w, SendAck(id))
    ensures Peers(w, Next(w, SendAck(id)), id, None, Some(ToParticipant(id, ACK)))
  {
  }

  lemma SendAckKeeps(w: World, id: Id, rounds: nat, lossless: bool)
    requires Inv(w, rounds, lossless) && Enabled(w, SendAck(id))
    ensures Inv(Next(w, SendAck(id)), rounds, lossless)
  {
    AckSentLocal(w, id, rounds);
    AckSentPeers(w, id, rounds);
    NetAfterSend(w, Next(w, SendAck(id)), id, ToParticipant(id, ACK), lossless);
  }

  lemma TriggerSentLocal(w: World, id: Id, rounds: nat)
    requires Local(w, rounds) && Enabled(w, SendTrigger(id))
    ensures Local(Next(w, SendTrigger(id)), rounds)
  {
  }

  lemma TriggerSentPeers(w: World, id: Id, rounds: nat)
    requires Local(w, rounds) && Enabled(w, SendTrigger(id))
    ensures Peers(w, Next(w, SendTrigger(id)), id, None, Some(ToParticipant(id, TRIGGER)))
  {
  }

  lemma SendTriggerKeeps(w: World, id: Id, rounds: nat, lossless: bool)
    requires Inv(w, rounds, lossless) && Enabled(w, SendTrigger(id))
    ensures Inv(Next(w, SendTrigger(id)), rounds, lossless)
  {
    TriggerSentLocal(w, id, rounds);
    TriggerSentPeers(w, id, rounds);
    NetAfterSend(w, Next(w, SendTrigger(id)), id, ToParticipant(id, TRIGGER), lossless);
  }

  lemma GoSentLocal(w: World, rounds: nat)
    requires Local(w, rounds) && Enabled(w, SendGo)
    ensures Local(Next(w, SendGo), rounds)
  {
  }

  lemma GoSentPeers(w: World, rounds: nat)
    requires Local(w, rounds) && Enabled(w, SendGo)
    ensures Peers(w, Next(w, SendGo), SINK, None, Some(ToParticipant(SINK, GO)))
  {
  }

  lemma SendGoKeeps(w: World, rounds: nat, lossless: bool)
    requires Inv(w, rounds, lossless) && Enabled(w, SendGo)
    ensures Inv(Next(w, SendGo), rounds, lossless)
  {
    GoSentLocal(w, rounds);
    GoSentPeers(w, rounds);
    NetAfterSend(w, Next(w, SendGo), SINK, ToParticipant(SINK, GO), lossless);
  }

  lemma ResetSentLocal(w: World, id: Id, rounds: nat)
    requires Local(w, rounds) && Enabled(w, SendReset(id))
    ensures Local(Next(w, SendReset(id)), rounds)
  {
  }

  lemma ResetSentPeers(w: World, id: Id, rounds: nat)
    requires Local(w, rounds) && Enabled(w, SendReset(id))
    ensures Peers(w, Next(w, SendReset(id)), id, None, Some(ToParticipant(id, RESET)))
  {
  }

  lemma SendResetKeeps(w: World, id: Id, rounds: nat, lossless: bool)
    requires Inv(w, rounds, lossless) && Enabled(w, SendReset(id))
    ensures Inv(Next(w, SendReset(id)), rounds, lossless)
  {
    ResetSentLocal(w, id, rounds);
    ResetSentPeers(w, id, rounds);
    NetAfterSend(w, Next(w, SendReset(id)), id, ToParticipant(id, RESET), lossless);
  }

  lemma AckReceived(w: World, id: Id, rounds: nat)
    requires Local(w, rounds) && id != SINK && ClientOf(w, id).pc == WAIT_ACK
    requires PigeonOf(w, id) == Some(ToParticipant(id, ACK))
    ensures var w' := SetClient(w, id, ClientReceive(ClientOf(w, id), ACK));
            Local(w', rounds) && Peers(w, w', id, PigeonOf(w, id), None)
  {
  }

  lemma TriggerReceived(w: World, id: Id, rounds: nat)
    requires Local(w, rounds) && id != SINK && ClientOf(w, id).pc == WAIT_TRIGGER
    requires PigeonOf(w, id) == Some(ToParticipant(id, TRIGGER))
    ensures var w' := SetClient(w, id, ClientReceive(ClientOf(w, id), TRIGGER));
            Local(w', rounds) && Peers(w, w', id, PigeonOf(w, id), None)
  {
  }

  lemma ResetReceived(w: World, id: Id, rounds: nat)
    requires Local(w, rounds) && id != SINK && ClientOf(w, id).pc == WAIT_RESET
    requires PigeonOf(w, id) == Some(ToParticipant(id, RESET))
    ensures var w' := SetClient(w, id, ClientReceive(ClientOf(w, id), RESET));
            Local(w', rounds) && Peers(w, w', id, PigeonOf(w, id), None)
  {
  }

  lemma ClientReceived(w: World, id: Id, kind: Kind, rounds: nat)
    requires Local(w, rounds) && id != SINK && Waiting(ClientOf(w, id).pc)
    requires PigeonOf(w, id) == Some(ToParticipant(id, kind))
    ensures var w' := SetClient(w, id, ClientReceive(ClientOf(w, id), kind));
            Local(w', rounds) && Peers(w, w', id, PigeonOf(w, id), None)
  {
    match ClientOf(w, id).pc {
      case WAIT_ACK => AckReceived(w, id, rounds);
      case WAIT_TRIGGER => TriggerReceived(w, id, rounds);
      case WAIT_RESET => ResetReceived(w, id, rounds);
      case _ =>
    }
  }

  lemma ClientReceiveKeeps(w: World, id: Id, kind: Kind, rounds: nat)
    requires Local(w, rounds) && Enabled(w, ParticipantReceives(id, kind)) && id != SINK
    requires PigeonOf(w, id) == Some(ToParticipant(id, kind))
    ensures var w' := Next(w, ParticipantReceives(id, kind));
            Local(w', rounds) && Peers(w, w', id, PigeonOf(w, id), None)
  {
    ClientReceived(w, id, kind, rounds);
    var received := SetClient(w, id, ClientReceive(ClientOf(w, id), kind));
    NetIsNotLocal(received, w.net - multiset{ToParticipant(id, kind)}, rounds);
  }

  /** The datagrams in flight do not matter to the local states. */
  lemma NetIsNotLocal(w: World, net: multiset<Pigeon>, rounds: nat)
    requires Local(w, rounds)
    ensures Local(w.(net := net), rounds) && forall q :: PigeonOf(w.(net := net), q) == PigeonOf(w, q)
  {
  }

  lemma SinkReceiveKeeps(w: World, kind: Kind, rounds: nat)
    requires Local(w, rounds) && Enabled(w, ParticipantReceives(SINK, kind))
    requires PigeonOf(w, SINK) == Some(ToParticipant(SINK, kind))
    ensures var w' := Next(w, ParticipantReceives(SINK, kind));
            Local(w', rounds) && Peers(w, w', SINK, PigeonOf(w, SINK), None)
  {
  }

  lemma ParticipantReceiveKeeps(w: World, id: Id, kind: Kind, rounds: nat, lossless: bool)
    requires Inv(w, rounds, lossless) && Enabled(w, ParticipantReceives(id, kind))
    ensures Inv(Next(w, ParticipantReceives(id, kind)), rounds, lossless)
  {
    var p := ToParticipant(id, kind);
    OnlyExpectedArrives(w, p, lossless);
    if id == SINK { SinkReceiveKeeps(w, kind, rounds); } else { ClientReceiveKeeps(w, id, kind, rounds); }
    NetAfterTake(w, Next(w, ParticipantReceives(id, kind)), id, p, lossless);
  }

  /** When everyone awaited has been counted, all are idle and the next round, if any, starts. */
  lemma RoundStarts(w: World, rounds: nat)
    requires w.round + w.roundsLeft == rounds && (w.phase == INIT_READY(ALL) || w.phase == WAIT_READY(WRITERS))
    requires Locals(w.phase, w.round, w.a, w.b, w.sink)
    ensures Local(NextRound(w), rounds) && forall q :: PigeonOf(NextRound(w), q) == PigeonOf(w, q)
  {
  }

  lemma RegistrationCountedLocal(w: World, id: Id, kind: Kind, rounds: nat)
    requires Local(w, rounds) && w.phase.REGISTERING? && PigeonOf(w, id) == Some(ToOrchestrator(id, kind))
    ensures Local(OrchestratorReceive(w, id, kind), rounds)
  {
  }

  lemma RegistrationCountedPeers(w: World, id: Id, kind: Kind, rounds: nat)
    requires Local(w, rounds) && w.phase.REGISTERING? && PigeonOf(w, id) == Some(ToOrchestrator(id, kind))
    ensures Peers(w, OrchestratorReceive(w, id, kind), id, PigeonOf(w, id), None)
  {
  }

  lemma RegistrationCounted(w: World, id: Id, kind: Kind, rounds: nat)
    requires Local(w, rounds) && w.phase.REGISTERING? && PigeonOf(w, id) == Some(ToOrchestrator(id, kind))
    ensures var w' := OrchestratorReceive(w, id, kind); Local(w', rounds) && Peers(w, w', id, PigeonOf(w, id), None)
  {
    RegistrationCountedLocal(w, id, kind, rounds);
    RegistrationCountedPeers(w, id, kind, rounds);
  }

  /** Counting a READY before it is known whether the round can start. */
  lemma InitReadyNoted(w: World, id: Id, kind: Kind, rounds: nat)
    requires Local(w, rounds) && w.phase.INIT_READY? && PigeonOf(w, id) == Some(ToOrchestrator(id, kind))
    ensures var mid := w.(phase := INIT_READY(Collect(w.phase.seen, ALL, READY, id, kind)));
            Locals(mid.phase, mid.round, mid.a, mid.b, mid.sink) && Peers(w, mid, id, PigeonOf(w, id), None)
  {
    assert kind == READY && !Has(w.phase.seen, id);
  }

  lemma ReadyNoted(w: World, id: Id, kind: Kind, rounds: nat)
    requires Local(w, rounds) && w.phase.WAIT_READY? && PigeonOf(w, id) == Some(ToOrchestrator(id, kind))
    ensures var mid := w.(phase := WAIT_READY(Collect(w.phase.seen, WRITERS, READY, id, kind)));
            Locals(mid.phase, mid.round, mid.a, mid.b, mid.sink) && Peers(w, mid, id, PigeonOf(w, id), None)
  {
    assert kind == READY && id != SINK && !Has(w.phase.seen, id);
  }

  lemma InitReadyCounted(w: World, id: Id, kind: Kind, rounds: nat)
    requires Local(w, rounds) && w.phase.INIT_READY? && PigeonOf(w, id) == Some(ToOrchestrator(id, kind))
    ensures var w' := OrchestratorReceive(w, id, kind); Local(w', rounds) && Peers(w, w', id, PigeonOf(w, id), None)
  {
    var mid := w.(phase := INIT_READY(Collect(w.phase.seen, ALL, READY, id, kind)));
    InitReadyNoted(w, id, kind, rounds);
    if mid.phase.seen == ALL { RoundStarts(mid, rounds); }
  }

  lemma DoneCounted(w: World, id: Id, kind: Kind, rounds: nat)
    requires Local(w, rounds) && w.phase.WAIT_DONE? && PigeonOf(w, id) == Some(ToOrchestrator(id, kind))
    ensures var w' := OrchestratorReceive(w, id, kind); Local(w', rounds) && Peers(w, w', id, PigeonOf(w, id), None)
  {
    assert id != SINK && kind == DONE && ClientOf(w, id).pc == WAIT_RESET && !Has(w.phase.seen, id);
    assert StageOf(OrchestratorReceive(w, id, kind).phase, id) == CLOSED;
  }

  lemma SinkReadyCounted(w: World, id: Id, kind: Kind, rounds: nat)
    requires Local(w, rounds) && w.phase.WAIT_SINK? && PigeonOf(w, id) == Some(ToOrchestrator(id, kind))
    ensures var w' := OrchestratorReceive(w, id, kind); Local(w', rounds) && Peers(w, w', id, PigeonOf(w, id), None)
  {
  }

  lemma ReadyCounted(w: World, id: Id, kind: Kind, rounds: nat)
    requires Local(w, rounds) && w.phase.WAIT_READY? && PigeonOf(w, id) == Some(ToOrchestrator(id, kind))
    ensures var w' := OrchestratorReceive(w, id, kind); Local(w', rounds) && Peers(w, w', id, PigeonOf(w, id), None)
  {
    var mid := w.(phase := WAIT_READY(Collect(w.phase.seen, WRITERS, READY, id, kind)));
    ReadyNoted(w, id, kind, rounds);
    if mid.phase.seen == WRITERS { RoundStarts(mid, rounds); }
  }

  lemma ExpectedCounted(w: World, id: Id, kind: Kind, rounds: nat)
    requires Local(w, rounds) && PigeonOf(w, id) == Some(ToOrchestrator(id, kind))
    requires w.phase.REGISTERING? || w.phase.INIT_READY? || w.phase.WAIT_DONE? || w.phase.WAIT_SINK?
             || w.phase.WAIT_READY?
    ensures var w' := OrchestratorReceive(w, id, kind); Local(w', rounds) && Peers(w, w', id, PigeonOf(w, id), None)
  {
    match w.phase {
      case REGISTERING(_) => RegistrationCounted(w, id, kind, rounds);
      case INIT_READY(_) => InitReadyCounted(w, id, kind, rounds);
      case WAIT_DONE(_) => DoneCounted(w, id, kind, rounds);
      case WAIT_SINK => SinkReadyCounted(w, id, kind, rounds);
      case WAIT_READY(_) => ReadyCounted(w, id, kind, rounds);
    }
  }

  lemma ArrivalCounted(w: World, id: Id, kind: Kind, rounds: nat)
    requires Local(w, rounds) && Enabled(w, OrchestratorReceives(id, kind))
             && PigeonOf(w, id) == Some(ToOrchestrator(id, kind))
    ensures var w' := Next(w, OrchestratorReceives(id, kind));
            Local(w', rounds) && Peers(w, w', id, PigeonOf(w, id), None)
  {
    var net := w.net - multiset{ToOrchestrator(id, kind)};
    NetIsNotLocal(w, net, rounds);
    ExpectedCounted(w.(net := net), id, kind, rounds);
  }

  lemma OrchestratorReceiveKeeps(w: World, id: Id, kind: Kind, rounds: nat, lossless: bool)
    requires Inv(w, rounds, lossless) && Enabled(w, OrchestratorReceives(id, kind))
    ensures Inv(Next(w, OrchestratorReceives(id, kind)), rounds, lossless)
  {
    var p := ToOrchestrator(id, kind);
    OnlyExpectedArrives(w, p, lossless);
    ArrivalCounted(w, id, kind, rounds);
    NetAfterTake(w, Next(w, OrchestratorReceives(id, kind)), id, p, lossless);
  }

  lemma LoseKeeps(w: World, p: Pigeon, rounds: nat)
    requires Inv(w, rounds, false) && Enabled(w, Lose(p))
    ensures Inv(Next(w, Lose(p)), rounds, false)
  {
    var w' := Next(w, Lose(p));
    forall q ensures NetFits(w'.net, q, PigeonOf(w', q), false) {
      assert NetFits(w.net, q, PigeonOf(w, q), false);
    }
  }

  lemma StepKeepsInv(w: World, step: Step, rounds: nat, lossless: bool)
    requires Inv(w, rounds, lossless) && Enabled(w, step) && (lossless ==> !step.Lose?)
    ensures Inv(Next(w, step), rounds, lossless)
  {
    match step
    case Register(id) => RegisterKeeps(w, id, rounds, lossless);
    case SendReady(id) => SendReadyKeeps(w, id, rounds, lossless);
    case SendDone(id) => SendDoneKeeps(w, id, rounds, lossless);
    case OpenFile(id) => OpenFileKeeps(w, id, rounds, lossless);
    case CloseFile(id) => CloseFileKeeps(w, id, rounds, lossless);
    case ReadFile => ReadFileKeeps(w, rounds, lossless);
    case SendAck(id) => SendAckKeeps(w, id, rounds, lossless);
    case SendTrigger(id) => SendTriggerKeeps(w, id, rounds, lossless);
    case SendGo => SendGoKeeps(w, rounds, lossless);
    case SendReset(id) => SendResetKeeps(w, id, rounds, lossless);
    case OrchestratorReceives(id, kind) => OrchestratorReceiveKeeps(w, id, kind, rounds, lossless);
    case ParticipantReceives(id, kind) => ParticipantReceiveKeeps(w, id, kind, rounds, lossless);
    case Lose(p) => LoseKeeps(w, p, rounds);
  }

  // ---------------------------------------------------------------------------------------------
  // Runs
  // ---------------------------------------------------------------------------------------------

  ghost function Run(w: World, steps: seq<Step>): World {
    if steps == [] then w
    else
      var before := Run(w, steps[..|steps| - 1]);
      if Enabled(before, steps[|steps| - 1]) then Next(before, steps[|steps| - 1]) else before
  }

  ghost predicate IsRun(w: World, steps: seq<Step>) {
    steps == [] || (IsRun(w, steps[..|steps| - 1]) && Enabled(Run(w, steps[..|steps| - 1]), steps[|steps| - 1]))
  }

  ghost predicate Lossless(steps: seq<Step>) {
    forall i :: 0 <= i < |steps| ==> !steps[i].Lose?
  }

  lemma {:induction false} RunKeepsInv(rounds: nat, steps: seq<Step>, lossless: bool)
    requires IsRun(Init(rounds), steps) && (lossless ==> Lossless(steps))
    ensures Inv(Run(Init(rounds), steps), rounds, lossless)
  {
    if steps == [] {
      InitInv(rounds, lossless);
    } else {
      var n := |steps| - 1;
      RunKeepsInv(rounds, steps[..n], lossless);
      StepKeepsInv(Run(Init(rounds), steps[..n]), steps[n], rounds, lossless);
    }
  }

  /** Barrier safety, whatever the network loses, delays or reorders: from receiving GO to sending READY
      the sink looks at a file that both clients have closed for this round and not opened again. */
  lemma BarrierSafety(rounds: nat, steps: seq<Step>)
    requires IsRun(Init(rounds), steps)
    ensures var w := Run(Init(rounds), steps);
            w.sink.pc == READING || w.sink.pc == READ_DONE ==>
              w.sink.gos == w.round
              && w.a.triggers == w.a.closes == w.a.opens == w.round
              && w.b.triggers == w.b.closes == w.b.opens == w.round
  {
    RunKeepsInv(rounds, steps, false);
  }

  /** At most one datagram is ever in flight between the orchestrator and a participant. */
  lemma OneDatagramPerPeer(rounds: nat, steps: seq<Step>)
    requires IsRun(Init(rounds), steps)
    ensures var net := Run(Init(rounds), steps).net;
            forall p, q :: p in net && q in net && p.peer == q.peer ==> p == q && net[p] == 1
  {
    RunKeepsInv(rounds, steps, false);
    var w := Run(Init(rounds), steps);
    forall p, q | p in w.net && q in w.net && p.peer == q.peer ensures p == q && w.net[p] == 1 {
      OnlyExpectedArrives(w, p, false);
      OnlyExpectedArrives(w, q, false);
      assert NetFits(w.net, p.peer, PigeonOf(w, p.peer), false);
    }
  }

  // ---------------------------------------------------------------------------------------------
  // Progress
  // ---------------------------------------------------------------------------------------------

  /** Steps a client still takes part in before it is next idle. */
  function ClientWork(phase: Phase, id: Id, pc: ClientPc): nat {
    match StageOf(phase, id)
    case UNKNOWN => if pc == START then 7 else 6
    case REGISTERED => 5
    case ACKED => if pc == WAIT_ACK then 4 else if pc == PREPARE then 3 else if pc == ANNOUNCE then 2 else 1
    case IDLE => if phase.TRIGGERING? then 10 else 0
    case TRIGGERED => if pc == WAIT_TRIGGER then 9 else if pc == CLOSING then 8 else if pc == REPORT then 7 else 6
    case CLOSED => 5
    case RESTARTED => if pc == WAIT_RESET then 4 else if pc == PREPARE then 3 else if pc == ANNOUNCE then 2 else 1
  }

  function SinkWork(phase: Phase, round: nat, sink: Sink): nat {
    var pc := sink.pc;
    match StageOf(phase, SINK)
    case UNKNOWN => if pc == SINK_START then 6 else 5
    case REGISTERED => 4
    case ACKED => if pc == SINK_WAIT_ACK then 3 else if pc == SINK_ANNOUNCE then 2 else 1
    case IDLE => if phase.TRIGGERING? || phase.WAIT_DONE? || phase.GOING? then 5 else 0
    case _ => if pc == READING then 3 else if pc == READ_DONE then 2 else if sink.gos == round then 1 else 4
  }

  function Work(w: World): nat {
    25 * w.roundsLeft
    + ClientWork(w.phase, NODE_A, w.a.pc) + ClientWork(w.phase, NODE_B, w.b.pc) + SinkWork(w.phase, w.round, w.sink)
  }

  lemma SendAckWork(w: World, step: Step, rounds: nat)
    requires Local(w, rounds) && Enabled(w, step) && step.SendAck?
    ensures Work(Next(w, step)) == Work(w) - 1
  {
  }

  lemma SendTriggerWork(w: World, step: Step, rounds: nat)
    requires Local(w, rounds) && Enabled(w, step) && step.SendTrigger?
    ensures Work(Next(w, step)) == Work(w) - 1
  {
  }

  lemma SendGoWork(w: World, step: Step, rounds: nat)
    requires Local(w, rounds) && Enabled(w, step) && step.SendGo?
    ensures Work(Next(w, step)) == Work(w) - 1
  {
  }

  lemma SendResetWork(w: World, step: Step, rounds: nat)
    requires Local(w, rounds) && Enabled(w, step) && step.SendReset?
    ensures Work(Next(w, step)) == Work(w) - 1
  {
    assert step.id != SINK && StageOf(Next(w, step).phase, step.id) == RESTARTED;
  }

  lemma RegisterWork(w: World, step: Step, rounds: nat)
    requires Local(w, rounds) && Enabled(w, step) && step.Register?
    ensures Work(Next(w, step)) == Work(w) - 1
  {
  }

  lemma ReadyWork(w: World, step: Step, rounds: nat)
    requires Local(w, rounds) && Enabled(w, step) && step.SendReady?
    ensures Work(Next(w, step)) == Work(w) - 1
  {
  }

  lemma DoneWork(w: World, step: Step, rounds: nat)
    requires Local(w, rounds) && Enabled(w, step) && step.SendDone?
    ensures Work(Next(w, step)) == Work(w) - 1
  {
  }

  lemma OpenWork(w: World, step: Step, rounds: nat)
    requires Local(w, rounds) && Enabled(w, step) && step.OpenFile?
    ensures Work(Next(w, step)) == Work(w) - 1
  {
  }

  lemma CloseWork(w: World, step: Step, rounds: nat)
    requires Local(w, rounds) && Enabled(w, step) && step.CloseFile?
    ensures Work(Next(w, step)) == Work(w) - 1
  {
  }

  lemma ReadWork(w: World, step: Step, rounds: nat)
    requires Local(w, rounds) && Enabled(w, step) && step.ReadFile?
    ensures Work(Next(w, step)) == Work(w) - 1
  {
  }

  lemma SinkReceiveWork(w: World, kind: Kind, rounds: nat)
    requires Local(w, rounds) && Enabled(w, ParticipantReceives(SINK, kind))
    requires PigeonOf(w, SINK) == Some(ToParticipant(SINK, kind))
    ensures Work(w.(sink := SinkReceive(w.sink, kind))) == Work(w) - 1
  {
  }

  lemma ClientReceiveWork(w: World, id: Id, kind: Kind, rounds: nat)
    requires Local(w, rounds) && Enabled(w, ParticipantReceives(id, kind)) && id != SINK
    requires PigeonOf(w, id) == Some(ToParticipant(id, kind))
    ensures Work(SetClient(w, id, ClientReceive(ClientOf(w, id), kind))) == Work(w) - 1
  {
  }

  lemma NetIsNotWork(w: World, net: multiset<Pigeon>)
    ensures Work(w.(net := net)) == Work(w)
  {
  }

  lemma RegistrationCountedWork(w: World, id: Id, kind: Kind, rounds: nat)
    requires Local(w, rounds) && w.phase.REGISTERING? && PigeonOf(w, id) == Some(ToOrchestrator(id, kind))
    ensures Work(OrchestratorReceive(w, id, kind)) == Work(w) - 1
  {
  }

  lemma RoundStartsWork(w: World, rounds: nat)
    requires Local(NextRound(w), rounds) && ClientWork(w.phase, NODE_A, w.a.pc)
             + ClientWork(w.phase, NODE_B, w.b.pc) + SinkWork(w.phase, w.round, w.sink) == 0
    ensures Work(NextRound(w)) == Work(w)
  {
  }

  lemma InitReadyNotedWork(w: World, id: Id, kind: Kind, rounds: nat)
    requires Local(w, rounds) && w.phase.INIT_READY? && PigeonOf(w, id) == Some(ToOrchestrator(id, kind))
    ensures Work(w.(phase := INIT_READY(Collect(w.phase.seen, ALL, READY, id, kind)))) == Work(w) - 1
  {
    assert kind == READY && !Has(w.phase.seen, id);
  }

  lemma InitReadyCountedWork(w: World, id: Id, kind: Kind, rounds: nat)
    requires Local(w, rounds) && w.phase.INIT_READY? && PigeonOf(w, id) == Some(ToOrchestrator(id, kind))
    ensures Work(OrchestratorReceive(w, id, kind)) == Work(w) - 1
  {
    var mid := w.(phase := INIT_READY(Collect(w.phase.seen, ALL, READY, id, kind)));
    InitReadyNotedWork(w, id, kind, rounds);
    if mid.phase.seen == ALL {
      InitReadyNoted(w, id, kind, rounds);
      RoundStarts(mid, rounds);
      RoundStartsWork(mid, rounds);
    }
  }

  lemma DoneCountedWork(w: World, id: Id, kind: Kind, rounds: nat)
    requires Local(w, rounds) && w.phase.WAIT_DONE? && PigeonOf(w, id) == Some(ToOrchestrator(id, kind))
    ensures Work(OrchestratorReceive(w, id, kind)) == Work(w) - 1
  {
    assert id != SINK && kind == DONE && ClientOf(w, id).pc == WAIT_RESET && !Has(w.phase.seen, id);
    var phase := OrchestratorReceive(w, id, kind).phase;
    assert StageOf(phase, id) == CLOSED && StageOf(w.phase, id) == TRIGGERED;
    assert StageOf(phase, SINK) == StageOf(w.phase, SINK) == IDLE;
  }

  lemma SinkReadyCountedWork(w: World, id: Id, kind: Kind, rounds: nat)
    requires Local(w, rounds) && w.phase.WAIT_SINK? && PigeonOf(w, id) == Some(ToOrchestrator(id, kind))
    ensures Work(OrchestratorReceive(w, id, kind)) == Work(w) - 1
  {
  }

  lemma ReadyNotedWork(w: World, id: Id, kind: Kind, rounds: nat)
    requires Local(w, rounds) && w.phase.WAIT_READY? && PigeonOf(w, id) == Some(ToOrchestrator(id, kind))
    ensures Work(w.(phase := WAIT_READY(Collect(w.phase.seen, WRITERS, READY, id, kind)))) == Work(w) - 1
  {
    assert kind == READY && id != SINK && !Has(w.phase.seen, id);
  }

  lemma ReadyCountedWork(w: World, id: Id, kind: Kind, rounds: nat)
    requires Local(w, rounds) && w.phase.WAIT_READY? && PigeonOf(w, id) == Some(ToOrchestrator(id, kind))
    ensures Work(OrchestratorReceive(w, id, kind)) == Work(w) - 1
  {
    var mid := w.(phase := WAIT_READY(Collect(w.phase.seen, WRITERS, READY, id, kind)));
    ReadyNotedWork(w, id, kind, rounds);
    if mid.phase.seen == WRITERS {
      ReadyNoted(w, id, kind, rounds);
      RoundStarts(mid, rounds);
      RoundStartsWork(mid, rounds);
    }
  }

  lemma OrchestratorReceiveWork(w: World, id: Id, kind: Kind, rounds: nat)
    requires Local(w, rounds) && Enabled(w, OrchestratorReceives(id, kind))
    requires PigeonOf(w, id) == Some(ToOrchestrator(id, kind))
    ensures Work(Next(w, OrchestratorReceives(id, kind))) == Work(w) - 1
  {
    var net := w.net - multiset{ToOrchestrator(id, kind)};
    var t := w.(net := net);
    NetIsNotWork(w, net);
    NetIsNotLocal(w, net, rounds);
    match t.phase {
      case REGISTERING(_) => RegistrationCountedWork(t, id, kind, rounds);
      case INIT_READY(_) => InitReadyCountedWork(t, id, kind, rounds);
      case WAIT_DONE(_) => DoneCountedWork(t, id, kind, rounds);
      case WAIT_SINK => SinkReadyCountedWork(t, id, kind, rounds);
      case WAIT_READY(_) => ReadyCountedWork(t, id, kind, rounds);
      case _ =>
    }
  }

  lemma StepWork(w: World, step: Step, rounds: nat)
    requires Inv(w, rounds, true) && Enabled(w, step) && !step.Lose?
    ensures Work(Next(w, step)) == Work(w) - 1
  {
    match step
    case OrchestratorReceives(id, kind) =>
      OnlyExpectedArrives(w, ToOrchestrator(id, kind), true);
      OrchestratorReceiveWork(w, id, kind, rounds);
    case ParticipantReceives(id, kind) =>
      OnlyExpectedArrives(w, ToParticipant(id, kind), true);
      var net := w.net - multiset{ToParticipant(id, kind)};
      if id == SINK {
        SinkReceiveWork(w, kind, rounds);
        NetIsNotWork(w.(sink := SinkReceive(w.sink, kind)), net);
      } else {
        ClientReceiveWork(w, id, kind, rounds);
        NetIsNotWork(SetClient(w, id, ClientReceive(ClientOf(w, id), kind)), net);
      }
    case Register(_) => RegisterWork(w, step, rounds);
    case SendReady(_) => ReadyWork(w, step, rounds);
    case SendDone(_) => DoneWork(w, step, rounds);
    case OpenFile(_) => OpenWork(w, step, rounds);
    case CloseFile(_) => CloseWork(w, step, rounds);
    case ReadFile => ReadWork(w, step, rounds);
    case SendAck(_) => SendAckWork(w, step, rounds);
    case SendTrigger(_) => SendTriggerWork(w, step, rounds);
    case SendGo => SendGoWork(w, step, rounds);
    case SendReset(_) => SendResetWork(w, step, rounds);
  }

  lemma {:induction false} RunWork(rounds: nat, steps: seq<Step>)
    requires IsRun(Init(rounds), steps) && Lossless(steps)
    ensures |steps| + Work(Run(Init(rounds), steps)) == 25 * rounds + 20
  {
    if steps != [] {
      var n := |steps| - 1;
      RunWork(rounds, steps[..n]);
      RunKeepsInv(rounds, steps[..n], true);
      StepWork(Run(Init(rounds), steps[..n]), steps[n], rounds);
    }
  }

  /** The move a participant's conversation is waiting for. */
  function MoveOf(w: World, id: Id): Step {
    if PigeonOf(w, id).Some? then
      var p := PigeonOf(w, id).value;
      if p.ToOrchestrator? then OrchestratorReceives(id, p.kind) else ParticipantReceives(id, p.kind)
    else if id == SINK then
      if w.sink.pc == SINK_START then Register(SINK) else if w.sink.pc == READING then ReadFile else SendReady(SINK)
    else
      match ClientOf(w, id).pc
      case START => Register(id)
      case PREPARE => OpenFile(id)
      case ANNOUNCE => SendReady(id)
      case CLOSING => CloseFile(id)
      case _ => SendDone(id)
  }

  function Awaited(phase: Phase): Id {
    match phase
    case REGISTERING(seen) => Missing(seen)
    case INIT_READY(seen) => Missing(seen)
    case WAIT_DONE(seen) => if seen.a then NODE_B else NODE_A
    case WAIT_READY(seen) => if seen.a then NODE_B else NODE_A
    case _ => SINK
  }

  function Missing(seen: Mask): Id {
    if !seen.sink then SINK else if !seen.a then NODE_A else NODE_B
  }

  function SomeMove(w: World): Step {
    match w.phase
    case ACKING(todo) => SendAck(if todo.sink then SINK else if todo.a then NODE_A else NODE_B)
    case TRIGGERING(todo) => SendTrigger(if todo.a then NODE_A else NODE_B)
    case GOING => SendGo
    case RESETTING(todo) => SendReset(if todo.a then NODE_A else NODE_B)
    case _ => MoveOf(w, Awaited(w.phase))
  }

  lemma ExpectedIsInFlight(w: World, id: Id)
    requires NetInv(w, true) && PigeonOf(w, id).Some?
    ensures PigeonOf(w, id).value in w.net
  {
    assert NetFits(w.net, id, PigeonOf(w, id), true);
    assert w.net[PigeonOf(w, id).value] == 1;
  }

  lemma MoveIsEnabled(w: World, id: Id, rounds: nat)
    requires Local(w, rounds) && (PigeonOf(w, id).Some? ==> PigeonOf(w, id).value in w.net)
    requires StageOf(w.phase, id) in {UNKNOWN, ACKED, TRIGGERED, RESTARTED}
    requires w.phase.REGISTERING? || w.phase.INIT_READY? || w.phase.WAIT_DONE? || w.phase.WAIT_SINK?
             || w.phase.WAIT_READY?
    ensures Enabled(w, MoveOf(w, id)) && !MoveOf(w, id).Lose?
  {
    if id == SINK {
      assert w.sink.pc == SINK_WAIT_ACK || w.sink.pc == WAIT_GO ==> PigeonOf(w, id).Some?;
    } else {
      assert Waiting(ClientOf(w, id).pc) ==> PigeonOf(w, id).Some?;
    }
  }

  lemma NeverStuck(w: World, rounds: nat)
    requires Inv(w, rounds, true) && !w.phase.FINISHED?
    ensures Enabled(w, SomeMove(w)) && !SomeMove(w).Lose?
  {
    if w.phase.REGISTERING? || w.phase.INIT_READY? || w.phase.WAIT_DONE? || w.phase.WAIT_SINK? || w.phase.WAIT_READY? {
      var id := Awaited(w.phase);
      if PigeonOf(w, id).Some? { ExpectedIsInFlight(w, id); }
      MoveIsEnabled(w, id, rounds);
    }
  }

  /** Barrier progress: on a lossless network no reachable state is stuck before the orchestrator is
      finished, and it is finished after exactly 25 steps a round and 20 to set up, whatever the
      interleaving. */
  lemma BarrierProgress(rounds: nat, steps: seq<Step>)
    requires IsRun(Init(rounds), steps) && Lossless(steps)
    ensures |steps| <= 25 * rounds + 20
    ensures Run(Init(rounds), steps).phase.FINISHED? <==> |steps| == 25 * rounds + 20
    ensures |steps| < 25 * rounds + 20 ==> exists step: Step :: !step.Lose? && Enabled(Run(Init(rounds), steps), step)
  {
    RunWork(rounds, steps);
    RunKeepsInv(rounds, steps, true);
    var w := Run(Init(rounds), steps);
    if !w.phase.FINISHED? {
      NeverStuck(w, rounds);
      StepWork(w, SomeMove(w), rounds);
    }
  }

  /** When the orchestrator is finished, over any network, each client has been triggered and the sink
      has been sent GO once a round, every file opened was closed but the one prepared for the next
      trigger, and nothing is in flight. */
  lemma PerformFinishes(rounds: nat, steps: seq<Step>)
    requires IsRun(Init(rounds), steps) && Run(Init(rounds), steps).phase.FINISHED?
    ensures var w := Run(Init(rounds), steps);
            w.a.triggers == w.a.closes == rounds && w.b.triggers == w.b.closes == rounds && w.sink.gos == rounds
            && w.a.opens == w.b.opens == rounds + 1 && w.net == multiset{}
  {
    RunKeepsInv(rounds, steps, false);
    var w := Run(Init(rounds), steps);
    forall p ensures w.net[p] == 0 {
      assert NetFits(w.net, p.peer, PigeonOf(w, p.peer), false);
    }
  }

  // ---------------------------------------------------------------------------------------------
  // What one lost datagram does
  // ---------------------------------------------------------------------------------------------

  /** The datagram the conversation with `id` waits for is gone. */
  ghost predicate Dead(w: World, id: Id) {
    PigeonOf(w, id).Some? && PigeonOf(w, id).value !in w.net
  }

  lemma PigeonHasPeer(w: World, id: Id)
    requires PigeonOf(w, id).Some?
    ensures PigeonOf(w, id).value.peer == id
  {
  }

  lemma SendLeavesDead(w: World, w': World, p: Pigeon, id: Id)
    requires Dead(w, id) && Peers(w, w', p.peer, None, Some(p)) && w'.net == w.net + multiset{p}
    ensures Dead(w', id)
  {
    PigeonHasPeer(w, id);
  }

  lemma ReceiveLeavesDead(w: World, w': World, p: Pigeon, id: Id)
    requires Dead(w, id) && p in w.net && Peers(w, w', p.peer, Some(p), None) && w'.net == w.net - multiset{p}
    ensures Dead(w', id)
  {
  }

  lemma SendStepLeavesDead(w: World, step: Step, rounds: nat, id: Id)
    requires Local(w, rounds) && Enabled(w, step) && Dead(w, id)
    requires step.Register? || step.SendReady? || step.SendDone?
    ensures Dead(Next(w, step), id)
  {
    match step
    case Register(peer) =>
      RegistrationSentPeers(w, peer, rounds);
      SendLeavesDead(w, Next(w, step), ToOrchestrator(peer, REGISTRATION), id);
    case SendReady(peer) =>
      ReadySentPeers(w, peer, rounds);
      SendLeavesDead(w, Next(w, step), ToOrchestrator(peer, READY), id);
    case SendDone(peer) =>
      DoneSentPeers(w, peer, rounds);
      SendLeavesDead(w, Next(w, step), ToOrchestrator(peer, DONE), id);
  }

  lemma NotifyStepLeavesDead(w: World, step: Step, rounds: nat, id: Id)
    requires Local(w, rounds) && Enabled(w, step) && Dead(w, id)
    requires step.SendAck? || step.SendTrigger? || step.SendGo? || step.SendReset?
    ensures Dead(Next(w, step), id)
  {
    match step
    case SendAck(peer) =>
      AckSentPeers(w, peer, rounds);
      SendLeavesDead(w, Next(w, step), ToParticipant(peer, ACK), id);
    case SendTrigger(peer) =>
      TriggerSentPeers(w, peer, rounds);
      SendLeavesDead(w, Next(w, step), ToParticipant(peer, TRIGGER), id);
    case SendGo =>
      GoSentPeers(w, rounds);
      SendLeavesDead(w, Next(w, step), ToParticipant(SINK, GO), id);
    case SendReset(peer) =>
      ResetSentPeers(w, peer, rounds);
      SendLeavesDead(w, Next(w, step), ToParticipant(peer, RESET), id);
  }

  lemma LoneStepLeavesDead(w: World, step: Step, rounds: nat, id: Id)
    requires Local(w, rounds) && Enabled(w, step) && Dead(w, id)
    requires step.OpenFile? || step.CloseFile? || step.ReadFile?
    ensures Dead(Next(w, step), id)
  {
    match step
    case OpenFile(peer) => OpenAlone(w, peer, rounds);
    case CloseFile(peer) => CloseAlone(w, peer, rounds);
    case ReadFile => ReadAlone(w, rounds);
  }

  lemma ArrivalLeavesDead(w: World, step: Step, rounds: nat, id: Id)
    requires Inv(w, rounds, false) && Enabled(w, step) && Dead(w, id)
    requires step.OrchestratorReceives? || step.ParticipantReceives?
    ensures Dead(Next(w, step), id)
  {
    match step
    case OrchestratorReceives(peer, kind) =>
      var p := ToOrchestrator(peer, kind);
      OnlyExpectedArrives(w, p, false);
      ArrivalCounted(w, peer, kind, rounds);
      ReceiveLeavesDead(w, Next(w, step), p, id);
    case ParticipantReceives(peer, kind) =>
      var p := ToParticipant(peer, kind);
      OnlyExpectedArrives(w, p, false);
      if peer == SINK { SinkReceiveKeeps(w, kind, rounds); } else { ClientReceiveKeeps(w, peer, kind, rounds); }
      ReceiveLeavesDead(w, Next(w, step), p, id);
  }

  lemma LossLeavesDead(w: World, p: Pigeon, id: Id)
    requires Enabled(w, Lose(p)) && Dead(w, id)
    ensures Dead(Next(w, Lose(p)), id)
  {
    var net := w.net - multiset{p};
    assert forall q :: PigeonOf(w.(net := net), q) == PigeonOf(w, q);
  }

  /** A loss kills the conversation with its participant. */
  lemma LossKills(w: World, p: Pigeon, rounds: nat)
    requires Inv(w, rounds, false) && Enabled(w, Lose(p))
    ensures Dead(Next(w, Lose(p)), p.peer)
  {
    OnlyExpectedArrives(w, p, false);
    assert NetFits(w.net, p.peer, PigeonOf(w, p.peer), false);
    assert w.net[p] == 1;
    assert PigeonOf(Take(w, p), p.peer) == PigeonOf(w, p.peer);
  }

  lemma StepLeavesDead(w: World, step: Step, rounds: nat, id: Id)
    requires Inv(w, rounds, false) && Enabled(w, step) && Dead(w, id)
    ensures Dead(Next(w, step), id)
  {
    match step
    case Register(_) => SendStepLeavesDead(w, step, rounds, id);
    case SendReady(_) => SendStepLeavesDead(w, step, rounds, id);
    case SendDone(_) => SendStepLeavesDead(w, step, rounds, id);
    case OpenFile(_) => LoneStepLeavesDead(w, step, rounds, id);
    case CloseFile(_) => LoneStepLeavesDead(w, step, rounds, id);
    case ReadFile => LoneStepLeavesDead(w, step, rounds, id);
    case SendAck(_) => NotifyStepLeavesDead(w, step, rounds, id);
    case SendTrigger(_) => NotifyStepLeavesDead(w, step, rounds, id);
    case SendGo => NotifyStepLeavesDead(w, step, rounds, id);
    case SendReset(_) => NotifyStepLeavesDead(w, step, rounds, id);
    case OrchestratorReceives(_, _) => ArrivalLeavesDead(w, step, rounds, id);
    case ParticipantReceives(_, _) => ArrivalLeavesDead(w, step, rounds, id);
    case Lose(p) => LossLeavesDead(w, p, id);
  }

  ghost predicate Stalled(w: World) {
    exists id :: Dead(w, id)
  }

  lemma StepStalls(w: World, step: Step, rounds: nat)
    requires Inv(w, rounds, false) && Enabled(w, step) && (Stalled(w) || step.Lose?)
    ensures Stalled(Next(w, step))
  {
    if step.Lose? {
      LossKills(w, step.pigeon, rounds);
    } else {
      var id :| Dead(w, id);
      StepLeavesDead(w, step, rounds, id);
    }
  }

  lemma LastStepStalls(rounds: nat, before: seq<Step>, step: Step, steps: seq<Step>)
    requires steps != [] && before == steps[..|steps| - 1] && step == steps[|steps| - 1] && IsRun(Init(rounds), steps)
    requires Stalled(Run(Init(rounds), before)) || step.Lose?
    ensures Stalled(Run(Init(rounds), steps))
  {
    RunKeepsInv(rounds, before, false);
    StepStalls(Run(Init(rounds), before), step, rounds);
  }

  /** Nothing is sent twice: from its first loss on, a run has a conversation that can never go on. */
  lemma {:induction false} LossIsForever(rounds: nat, steps: seq<Step>)
    requires IsRun(Init(rounds), steps) && !Lossless(steps)
    ensures Stalled(Run(Init(rounds), steps))
  {
    var before, step := steps[..|steps| - 1], steps[|steps| - 1];
    if !step.Lose? { LossIsForever(rounds, before); }
    LastStepStalls(rounds, before, step, steps);
  }

  lemma FinishedIsNotStalled(w: World, rounds: nat)
    requires Local(w, rounds) && w.phase.FINISHED?
    ensures !Stalled(w)
  {
  }

  /** Over any network, perform is finished exactly when no datagram was lost on the way and all
      25 steps of every round and the 20 to set up have been taken: one single loss stalls it for ever. */
  lemma FinishesIffLossless(rounds: nat, steps: seq<Step>)
    requires IsRun(Init(rounds), steps)
    ensures Run(Init(rounds), steps).phase.FINISHED? <==> Lossless(steps) && |steps| == 25 * rounds + 20
  {
    if Lossless(steps) {
      BarrierProgress(rounds, steps);
    } else {
      var w := Run(Init(rounds), steps);
      LossIsForever(rounds, steps);
      RunKeepsInv(rounds, steps, false);
      if w.phase.FINISHED? { FinishedIsNotStalled(w, rounds); }
    }
  }

  lemma Extend(w: World, steps: seq<Step>, step: Step)
    requires IsRun(w, steps) && Enabled(Run(w, steps), step)
    ensures IsRun(w, steps + [step]) && Run(w, steps + [step]) == Next(Run(w, steps), step)
  {
    assert (steps + [step])[..|steps|] == steps;
  }

  /** A registration that is sent and lost. */
  lemma RegisterInVain(w: World, id: Id)
    requires Enabled(w, Register(id))
    ensures var sent := Next(w, Register(id));
            Enabled(sent, Lose(ToOrchestrator(id, REGISTRATION))) &&
            Next(sent, Lose(ToOrchestrator(id, REGISTRATION))) ==
              if id == SINK then w.(sink := w.sink.(pc := SINK_WAIT_ACK))
              else SetClient(w, id, ClientOf(w, id).(pc := WAIT_ACK))
  {
    var p := ToOrchestrator(id, REGISTRATION);
    assert w.net + multiset{p} - multiset{p} == w.net;
  }

  lemma ExtendInVain(w: World, steps: seq<Step>, id: Id) returns (steps': seq<Step>)
    requires IsRun(w, steps) && Enabled(Run(w, steps), Register(id))
    ensures IsRun(w, steps')
    ensures var end := Run(w, steps);
            Run(w, steps') == if id == SINK then end.(sink := end.sink.(pc := SINK_WAIT_ACK))
                              else SetClient(end, id, ClientOf(end, id).(pc := WAIT_ACK))
  {
    RegisterInVain(Run(w, steps), id);
    Extend(w, steps, Register(id));
    steps' := steps + [Register(id)];
    Extend(w, steps', Lose(ToOrchestrator(id, REGISTRATION)));
    steps' := steps' + [Lose(ToOrchestrator(id, REGISTRATION))];
  }

  lemma StuckAtRegistration(w: World)
    requires w.net == multiset{} && w.phase.REGISTERING?
    requires w.a.pc == WAIT_ACK && w.b.pc == WAIT_ACK && w.sink.pc == SINK_WAIT_ACK
    ensures forall step: Step :: !Enabled(w, step)
  {
  }

  /** The bluntest instance: every registration is lost, and nobody at all can take another step. */
  lemma LossCanStall(rounds: nat) returns (steps: seq<Step>)
    ensures IsRun(Init(rounds), steps) && !Run(Init(rounds), steps).phase.FINISHED?
    ensures forall step: Step :: !Enabled(Run(Init(rounds), steps), step)
  {
    steps := ExtendInVain(Init(rounds), [], SINK);
    steps := ExtendInVain(Init(rounds), steps, NODE_A);
    steps := ExtendInVain(Init(rounds), steps, NODE_B);
    StuckAtRegistration(Run(Init(rounds), steps));
  }

  // ---------------------------------------------------------------------------------------------
  // The orchestrator's receive loops
  // ---------------------------------------------------------------------------------------------

  datatype Datagram = Datagram(origin: Id, kind: Kind, sender: int)

  function Bit(id: Id): bv8 {
    match id case SINK => 1 case NODE_A => 2 case NODE_B => 4
  }

  function Bits(m: Mask): bv8 {
    (if m.sink then 1 else 0) | (if m.a then 2 else 0) | (if m.b then 4 else 0)
  }

  lemma BitsOf(m: Mask, n: Mask, id: Id)
    ensures Bits(With(m, id)) == Bits(m) | Bit(id)
    ensures Bits(n) & Bit(id) != 0 <==> Has(n, id)
    ensures Bits(m) == Bits(n) <==> m == n
  {
  }

  /** The participants counted after some datagrams, by the same rule as the orchestrator's phases. */
  function Counted(inbox: seq<Datagram>, mask: Mask, awaited: Kind): Mask {
    if inbox == [] then NOBODY
    else
      var last := inbox[|inbox| - 1];
      Collect(Counted(inbox[..|inbox| - 1], mask, awaited), mask, awaited, last.origin, last.kind)
  }

  /** The participants heard of in some datagrams, whatever they sent. */
  function Heard(inbox: seq<Datagram>): Mask {
    if inbox == [] then NOBODY else With(Heard(inbox[..|inbox| - 1]), inbox[|inbox| - 1].origin)
  }

  /** Where the last datagram of a participant came from. */
  function LastAddress(inbox: seq<Datagram>, id: Id): Option<int> {
    if inbox == [] then None
    else if inbox[|inbox| - 1].origin == id then Some(inbox[|inbox| - 1].sender)
    else LastAddress(inbox[..|inbox| - 1], id)
  }

  predicate Knows(details: map<Id, int>, inbox: seq<Datagram>, id: Id) {
    && (Has(Heard(inbox), id) <==> id in details)
    && LastAddress(inbox, id) == if id in details then Some(details[id]) else None
  }

  function Unheard(m: Mask): nat {
    (if m.sink then 0 else 1) + (if m.a then 0 else 1) + (if m.b then 0 else 1)
  }

  /** Who is counted: the awaited participants that sent the awaited message at some time. */
  lemma {:induction false} CountedIff(inbox: seq<Datagram>, mask: Mask, awaited: Kind, id: Id)
    ensures Has(Counted(inbox, mask, awaited), id) <==>
            Has(mask, id) && exists i :: 0 <= i < |inbox| && inbox[i].origin == id && inbox[i].kind == awaited
  {
    if inbox != [] {
      var n := |inbox| - 1;
      CountedIff(inbox[..n], mask, awaited, id);
      assert forall i :: 0 <= i < n ==> inbox[..n][i] == inbox[i];
    }
  }

  /** Who is heard of: the participants that sent anything at all. */
  lemma {:induction false} HeardIff(inbox: seq<Datagram>, id: Id)
    ensures Has(Heard(inbox), id) <==> exists i :: 0 <= i < |inbox| && inbox[i].origin == id
  {
    if inbox != [] {
      var n := |inbox| - 1;
      HeardIff(inbox[..n], id);
      assert forall i :: 0 <= i < n ==> inbox[..n][i] == inbox[i];
    }
  }

  /** The address kept for a participant is that of the last datagram it sent. */
  lemma {:induction false} LastAddressIs(inbox: seq<Datagram>, id: Id, i: nat)
    requires i < |inbox| && inbox[i].origin == id && forall j :: i < j < |inbox| ==> inbox[j].origin != id
    ensures LastAddress(inbox, id) == Some(inbox[i].sender)
  {
    if i < |inbox| - 1 { LastAddressIs(inbox[..|inbox| - 1], id, i); }
  }

  /** The orchestrator's phases count as its loops do, whatever arrives: with what has been counted of some
      datagrams it goes on after the next one exactly when that completes the mask. */
  lemma PhasesCount(w: World, inbox: seq<Datagram>, msg: Datagram)
    ensures var more := inbox + [msg]; var next := OrchestratorReceive(w, msg.origin, msg.kind);
            && (w.phase == REGISTERING(Heard(inbox)) ==>
                  next == w.(phase := if Heard(more) == ALL then ACKING(ALL) else REGISTERING(Heard(more))))
            && (w.phase == INIT_READY(Counted(inbox, ALL, READY)) ==>
                  next == if Counted(more, ALL, READY) == ALL then NextRound(w)
                          else w.(phase := INIT_READY(Counted(more, ALL, READY))))
            && (w.phase == WAIT_DONE(Counted(inbox, WRITERS, DONE)) ==>
                  next == if Counted(more, WRITERS, DONE) == WRITERS then w.(phase := GOING)
                          else w.(phase := WAIT_DONE(Counted(more, WRITERS, DONE))))
            && (w.phase == WAIT_SINK && Counted(inbox, ONLY_SINK, READY) == NOBODY ==>
                  next == if Counted(more, ONLY_SINK, READY) == ONLY_SINK then w.(phase := RESETTING(WRITERS)) else w)
            && (w.phase == WAIT_READY(Counted(inbox, WRITERS, READY)) ==>
                  next == if Counted(more, WRITERS, READY) == WRITERS then NextRound(w)
                          else w.(phase := WAIT_READY(Counted(more, WRITERS, READY))))
  {
    assert (inbox + [msg])[..|inbox|] == inbox;
  }

  /** What a participant receives: who sent it, as far as it cares, and what it says. */
  datatype Whisper = Whisper(fromOrchestrator: bool, kind: Kind)

  /** The message a waiting client waits for. */
  function AwaitedBy(pc: ClientPc): Option<Kind> {
    match pc
    case WAIT_ACK => Some(ACK)
    case WAIT_TRIGGER => Some(TRIGGER)
    case WAIT_RESET => Some(RESET)
    case _ => None
  }

  /** A client goes on with the message it waits for and drops every other. */
  lemma ClientDropsOthers(c: Client, kind: Kind)
    requires Waiting(c.pc)
    ensures ClientReceive(c, kind) == c <==> AwaitedBy(c.pc) != Some(kind)
    ensures AwaitedBy(c.pc) == Some(kind) ==> !Waiting(ClientReceive(c, kind).pc)
  {
  }

  lemma SinkDropsOthers(s: Sink, kind: Kind)
    requires s.pc == SINK_WAIT_ACK || s.pc == WAIT_GO
    ensures SinkReceive(s, kind) == s <==> kind != if s.pc == WAIT_GO then GO else ACK
  {
  }

  class WowParticipant {
    /** Wait for a message of the orchestrator: whatever comes before the first such one is dropped, and
        nothing after it is consumed. */
    static method WaitFor(inbox: seq<Whisper>, mtype: Kind) returns (used: nat, received: bool)
      ensures used <= |inbox| && (received <==> Whisper(true, mtype) in inbox)
      ensures received ==>
                used > 0 && inbox[used - 1] == Whisper(true, mtype) && Whisper(true, mtype) !in inbox[..used - 1]
      ensures !received ==> used == |inbox|
    {
      used, received := 0, false;
      while !received && used < |inbox|
        invariant used <= |inbox|
        invariant !received ==> Whisper(true, mtype) !in inbox[..used]
        invariant received ==>
          used > 0 && inbox[used - 1] == Whisper(true, mtype) && Whisper(true, mtype) !in inbox[..used - 1]
        decreases |inbox| - used, !received
      {
        var msg := inbox[used];
        received := msg.fromOrchestrator && msg.kind == mtype;
        used := used + 1;
      }
    }
  }

  class WowOrchestra {
    var contactDetails: map<Id, int>

    constructor ()
      ensures contactDetails == map[]
    {
      contactDetails := map[];
    }

    /** Wait until every participant in the mask has sent the awaited message: exactly the shortest
        sufficient prefix of what arrives is consumed, or all of it when it does not suffice. */
    method WaitMsgSubset(inbox: seq<Datagram>, mtype: Kind, ghost mask: Mask, pmask: bv8)
      returns (used: nat, cmask: bv8)
      requires pmask == Bits(mask)
      ensures used <= |inbox| && cmask == Bits(Counted(inbox[..used], mask, mtype))
      ensures forall k :: 0 <= k < used ==> Counted(inbox[..k], mask, mtype) != mask
      ensures cmask == pmask || used == |inbox|
    {
      cmask, used := 0, 0;
      while cmask != pmask && used < |inbox|
        invariant used <= |inbox| && cmask == Bits(Counted(inbox[..used], mask, mtype))
        invariant forall k :: 0 <= k < used ==> Counted(inbox[..k], mask, mtype) != mask
        decreases |inbox| - used
      {
        var msg := inbox[used];
        ghost var counted := Counted(inbox[..used], mask, mtype);
        assert inbox[..used + 1][..used] == inbox[..used];
        BitsOf(counted, mask, msg.origin);
        if msg.kind == mtype && pmask & Bit(msg.origin) != 0 {
          cmask := cmask | Bit(msg.origin);
        }
        used := used + 1;
      }
    }

    /** Wait for three different origins, whatever they send; the last address of each is kept. */
    method WaitRegistrations(inbox: seq<Datagram>) returns (used: nat, pendingRegistrations: int)
      requires contactDetails == map[]
      modifies this
      ensures used <= |inbox| && forall id: Id :: Knows(contactDetails, inbox[..used], id)
      ensures pendingRegistrations == Unheard(Heard(inbox[..used]))
      ensures pendingRegistrations == 0 || used == |inbox|
      ensures forall k :: 0 <= k < used ==> Heard(inbox[..k]) != ALL
    {
      pendingRegistrations, used := 3, 0;
      while pendingRegistrations != 0 && used < |inbox|
        invariant used <= |inbox| && forall id: Id :: Knows(contactDetails, inbox[..used], id)
        invariant pendingRegistrations == Unheard(Heard(inbox[..used]))
        invariant forall k :: 0 <= k < used ==> Heard(inbox[..k]) != ALL
        decreases |inbox| - used
      {
        var msg := inbox[used];
        assert inbox[..used + 1][..used] == inbox[..used];
        ghost var before := contactDetails;
        assert Knows(before, inbox[..used], msg.origin);
        if msg.origin !in contactDetails {
          pendingRegistrations := pendingRegistrations - 1;
        }
        contactDetails := contactDetails[msg.origin := msg.sender];
        ghost var heard := inbox[..used + 1];
        forall id: Id ensures Knows(contactDetails, heard, id) {
          assert Knows(before, inbox[..used], id);
        }
        used := used + 1;
      }
    }
  }
}
