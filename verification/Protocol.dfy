/**
 The continuous-batching protocol as an event-driven state machine over values.

 A run is a sequence of events; the state is a fold of `Apply` over it. `stored` records, for every
 active request, the tokens whose keys and values the KV cache holds. The device is only assumed to
 answer from what is really stored plus the row it was given (`Honest`), so output correctness has
 to be derived from the invariant that the stored tokens are a prefix of the request's history.
 */
module Protocol {
  import opened Wrappers
  import opened Generation

  datatype Spec = Spec(prompt: seq<int>, maxNew: nat, eos: set<int>, greedy: bool)

  datatype Pending = Pending(id: nat, spec: Spec)

  datatype Phase = NeedsPrefill | AwaitingDecode(token: int) | InFlight(batch: nat)

  datatype ActiveRequest = ActiveRequest(spec: Spec, generated: seq<int>, history: seq<int>, admitted: nat, phase: Phase)

  datatype Kind = Prefill | Decode | Verify

  /** One scheduled sequence; the page table and the reservation matter only to the KV manager. */
  datatype Row = Row(id: nat, tokens: seq<int>, start: nat, context: nat, table: seq<nat>, reservation: nat)

  datatype Batch = Batch(id: nat, kind: Kind, rows: seq<Row>) {
    function Width(): nat {
      if rows == [] then 0 else |rows[0].tokens|
    }
  }

  datatype Finished = Finished(id: nat, prompt: seq<int>, generated: seq<int>, stoppedOnEos: bool)

  datatype State = State(
    submitted: map<nat, Spec>,
    pending: seq<Pending>,
    active: map<nat, ActiveRequest>,
    stored: map<nat, seq<int>>,
    inFlight: Option<Batch>,
    done: seq<Finished>,
    cancelled: set<nat>,
    nextRequest: nat,
    nextBatch: nat)

  datatype Event =
    | Submit(spec: Spec)
    | Admit(position: nat, cached: nat, admitted: nat)
    | Preempt(id: nat)
    | Launch(batch: Batch)
    | Complete(tokens: seq<int>)
    | CompleteVerify(argmax: seq<int>)
    | Fail
    | Cancel(id: nat)

  const Initial: State := State(map[], [], map[], map[], None, [], {}, 1, 1)

  // ----- helpers -----

  function Last(s: seq<int>): int
    requires s != []
  {
    s[|s| - 1]
  }

  /** Some row from index `from` on belongs to the request. */
  ghost predicate Owned(rows: seq<Row>, from: nat, id: nat) {
    exists i :: from <= i < |rows| && rows[i].id == id
  }

  ghost predicate DistinctRows(rows: seq<Row>) {
    forall i, j :: 0 <= i < j < |rows| ==> rows[i].id != rows[j].id
  }

  function PendingIds(pending: seq<Pending>): set<nat> {
    set i | 0 <= i < |pending| :: pending[i].id
  }

  ghost function DoneIds(done: seq<Finished>): set<nat> {
    set i | 0 <= i < |done| :: done[i].id
  }

  function Remove<T>(s: seq<T>, position: nat): seq<T>
    requires position < |s|
  {
    s[..position] + s[position + 1..]
  }

  // ----- transitions -----

  /** Store the new history and either retire the request or wait for its next decode. */
  function Settle(s: State, id: nat, r: ActiveRequest, kv: seq<int>): State
    requires r.generated != []
  {
    var last := Last(r.generated);
    if last in r.spec.eos || |r.generated| >= r.spec.maxNew then
      s.(active := s.active - {id}, stored := s.stored - {id},
         done := s.done + [Finished(id, r.spec.prompt, r.generated, last in r.spec.eos)])
    else
      s.(active := s.active[id := r.(phase := AwaitingDecode(last))], stored := s.stored[id := kv])
  }

  function Grow(r: ActiveRequest, tokens: seq<int>): ActiveRequest {
    r.(generated := r.generated + tokens, history := r.history + tokens)
  }

  function CompleteRow(s: State, row: Row, token: int): State {
    if row.id !in s.active || row.id !in s.stored then s
    else
      var r := s.active[row.id];
      var kv := s.stored[row.id] + row.tokens;
      if row.context < |r.history| then
        s.(active := s.active[row.id := r.(phase := NeedsPrefill)], stored := s.stored[row.id := kv])
      else
        Settle(s, row.id, Grow(r, [token]), kv)
  }

  /** The rows from `i` on, in order. */
  function CompleteRows(s: State, rows: seq<Row>, tokens: seq<int>, i: nat): State
    requires |rows| == |tokens|
    decreases |rows| - i
  {
    if i >= |rows| then s
    else CompleteRows(CompleteRow(s, rows[i], tokens[i]), rows, tokens, i + 1)
  }

  /** Predictions taken from `position` on while the next draft token equals the prediction. */
  function Accepted(predictions: seq<int>, tokens: seq<int>, remaining: int, eos: set<int>, position: nat): (produced: seq<int>)
    requires position < |predictions| == |tokens|
    ensures 1 <= |produced| <= |predictions| - position
    decreases |predictions| - position
  {
    var prediction := predictions[position];
    if remaining == 1 || prediction in eos || position + 1 >= |tokens| || tokens[position + 1] != prediction
    then [prediction]
    else [prediction] + Accepted(predictions, tokens, remaining - 1, eos, position + 1)
  }

  function Produced(r: ActiveRequest, row: Row, predictions: seq<int>): (produced: seq<int>)
    requires row.tokens != [] && |predictions| == |row.tokens|
    ensures 1 <= |produced| <= |row.tokens|
  {
    Accepted(predictions, row.tokens, r.spec.maxNew - |r.generated|, r.spec.eos, 0)
  }

  function CompleteVerifyRow(s: State, row: Row, predictions: seq<int>): State {
    if row.id !in s.active || row.id !in s.stored || row.tokens == [] || |predictions| != |row.tokens| then s
    else
      var produced := Produced(s.active[row.id], row, predictions);
      Settle(s, row.id, Grow(s.active[row.id], produced), s.stored[row.id] + row.tokens[..|produced|])
  }

  /** Row `i` of a row-major matrix. */
  function Predictions(argmax: seq<int>, width: nat, i: nat): seq<int> {
    if i * width + width <= |argmax| then argmax[i * width..i * width + width] else []
  }

  function CompleteVerifyRows(s: State, rows: seq<Row>, argmax: seq<int>, width: nat, i: nat): State
    decreases |rows| - i
  {
    if i >= |rows| then s
    else CompleteVerifyRows(CompleteVerifyRow(s, rows[i], Predictions(argmax, width, i)), rows, argmax, width, i + 1)
  }

  function FailRow(s: State, kind: Kind, row: Row): State {
    if row.id !in s.active || row.tokens == [] then s
    else
      var phase := if kind == Prefill then NeedsPrefill else AwaitingDecode(row.tokens[0]);
      s.(active := s.active[row.id := s.active[row.id].(phase := phase)])
  }

  function FailRows(s: State, kind: Kind, rows: seq<Row>, i: nat): State
    decreases |rows| - i
  {
    if i >= |rows| then s else FailRows(FailRow(s, kind, rows[i]), kind, rows, i + 1)
  }

  function LaunchRow(s: State, batch: nat, row: Row): State {
    if row.id !in s.active then s
    else s.(active := s.active[row.id := s.active[row.id].(phase := InFlight(batch))])
  }

  function LaunchRows(s: State, batch: nat, rows: seq<Row>, i: nat): State
    decreases |rows| - i
  {
    if i >= |rows| then s else LaunchRows(LaunchRow(s, batch, rows[i]), batch, rows, i + 1)
  }

  /** What the scheduler may put in a row of the given kind for a request with the given phase. */
  ghost predicate MayLaunch(kind: Kind, r: ActiveRequest, kv: seq<int>, row: Row) {
    && row.start == |kv| && row.context == row.start + |row.tokens| && row.tokens != []
    && match kind
       case Prefill =>
         r.phase == NeedsPrefill && row.context <= |r.history| && row.tokens == r.history[row.start..row.context]
       case Decode =>
         r.phase == AwaitingDecode(row.tokens[0]) && |row.tokens| == 1
       case Verify =>
         && r.phase == AwaitingDecode(row.tokens[0]) && |row.tokens| >= 2
         && r.spec.greedy && |r.generated| + 2 <= r.spec.maxNew
  }

  ghost predicate LaunchEnabled(s: State, batch: Batch) {
    && s.inFlight.None? && batch.id == s.nextBatch && batch.rows != [] && DistinctRows(batch.rows)
    && (forall i :: 0 <= i < |batch.rows| ==>
      && batch.rows[i].id in s.active && batch.rows[i].id in s.stored
      && |batch.rows[i].tokens| == batch.Width()
      && MayLaunch(batch.kind, s.active[batch.rows[i].id], s.stored[batch.rows[i].id], batch.rows[i]))
  }

  ghost predicate Enabled(s: State, e: Event) {
    match e
    case Submit(spec) => spec.prompt != []
    case Admit(position, cached, _) => position < |s.pending| && cached < |s.pending[position].spec.prompt|
    case Preempt(id) => id in s.active && !s.active[id].phase.InFlight?
    case Launch(batch) => LaunchEnabled(s, batch)
    case Complete(tokens) =>
      s.inFlight.Some? && s.inFlight.value.kind != Verify && |tokens| == |s.inFlight.value.rows|
    case CompleteVerify(argmax) =>
      && s.inFlight.Some? && s.inFlight.value.kind == Verify
      && |argmax| == |s.inFlight.value.rows| * s.inFlight.value.Width()
    case Fail => s.inFlight.Some?
    case Cancel(id) =>
      if id in s.active then !s.active[id].phase.InFlight? else exists i :: 0 <= i < |s.pending| && s.pending[i].id == id
  }

  function SubmitTo(s: State, spec: Spec): State {
    var id := s.nextRequest;
    var s' := s.(submitted := s.submitted[id := spec], nextRequest := id + 1);
    if spec.maxNew == 0 then s'.(done := s.done + [Finished(id, spec.prompt, [], false)])
    else s'.(pending := s.pending + [Pending(id, spec)])
  }

  function AdmitTo(s: State, position: nat, cached: nat, admitted: nat): State
    requires position < |s.pending| && cached <= |s.pending[position].spec.prompt|
  {
    var p := s.pending[position];
    s.(pending := Remove(s.pending, position),
       active := s.active[p.id := ActiveRequest(p.spec, [], p.spec.prompt, admitted, NeedsPrefill)],
       stored := s.stored[p.id := p.spec.prompt[..cached]])
  }

  function WithoutPending(pending: seq<Pending>, id: nat): seq<Pending> {
    if pending == [] then []
    else if pending[0].id == id then pending[1..]
    else [pending[0]] + WithoutPending(pending[1..], id)
  }

  function CancelIn(s: State, id: nat): State {
    if id in s.active then
      s.(active := s.active - {id}, stored := s.stored - {id}, cancelled := s.cancelled + {id})
    else
      s.(pending := WithoutPending(s.pending, id), cancelled := s.cancelled + {id})
  }

  function PreemptIn(s: State, id: nat): State
    requires id in s.active
  {
    s.(active := s.active[id := s.active[id].(phase := NeedsPrefill)], stored := s.stored[id := []])
  }

  function LaunchIn(s: State, batch: Batch): State {
    LaunchRows(s.(inFlight := Some(batch), nextBatch := s.nextBatch + 1), batch.id, batch.rows, 0)
  }

  ghost function Apply(s: State, e: Event): State
    requires Enabled(s, e)
  {
    match e
    case Submit(spec) => SubmitTo(s, spec)
    case Admit(position, cached, admitted) => AdmitTo(s, position, cached, admitted)
    case Preempt(id) => PreemptIn(s, id)
    case Launch(batch) => LaunchIn(s, batch)
    case Complete(tokens) => CompleteRows(s.(inFlight := None), s.inFlight.value.rows, tokens, 0)
    case CompleteVerify(argmax) =>
      CompleteVerifyRows(s.(inFlight := None), s.inFlight.value.rows, argmax, s.inFlight.value.Width(), 0)
    case Fail => FailRows(s.(inFlight := None), s.inFlight.value.kind, s.inFlight.value.rows, 0)
    case Cancel(id) => CancelIn(s, id)
  }

  // ----- runs -----

  ghost predicate Legal(events: seq<Event>)
    decreases |events|, 0
  {
    events == [] || LegalThen(events[..|events| - 1], events[|events| - 1])
  }

  /** The run `events` can be continued by `e`. */
  ghost predicate LegalThen(events: seq<Event>, e: Event)
    decreases |events|, 2
  {
    Legal(events) && Enabled(After(events), e)
  }

  ghost function After(events: seq<Event>): State
    requires Legal(events)
    decreases |events|, 1
  {
    if events == [] then Initial else AfterThen(events[..|events| - 1], events[|events| - 1])
  }

  ghost function AfterThen(events: seq<Event>, e: Event): State
    requires LegalThen(events, e)
    decreases |events|, 3
  {
    Apply(After(events), e)
  }

  /** The device answers every greedy position with the model applied to what the cache really holds. */
  ghost predicate HonestEvent(next: Model, s: State, e: Event)
    requires Enabled(s, e)
  {
    match e
    case Complete(tokens) =>
      forall i :: 0 <= i < |tokens| ==> HonestToken(next, s, s.inFlight.value.rows[i], tokens[i])
    case CompleteVerify(argmax) =>
      forall i :: 0 <= i < |s.inFlight.value.rows| ==>
        HonestPredictions(next, s, s.inFlight.value.rows[i], Predictions(argmax, s.inFlight.value.Width(), i))
    case _ => true
  }

  ghost predicate HonestToken(next: Model, s: State, row: Row, token: int) {
    row.id in s.active && row.id in s.stored && s.active[row.id].spec.greedy
      && row.context >= |s.active[row.id].history|
    ==> token == next(s.stored[row.id] + row.tokens)
  }

  ghost predicate HonestPredictions(next: Model, s: State, row: Row, predictions: seq<int>) {
    row.id in s.stored && |predictions| == |row.tokens| ==>
      forall p :: 0 <= p < |predictions| ==> predictions[p] == next(s.stored[row.id] + row.tokens[..p + 1])
  }

  ghost predicate Honest(next: Model, events: seq<Event>)
    requires Legal(events)
    decreases |events|, 0
  {
    events == [] || HonestThen(next, events[..|events| - 1], events[|events| - 1])
  }

  ghost predicate HonestThen(next: Model, events: seq<Event>, e: Event)
    requires LegalThen(events, e)
    decreases |events|, 1
  {
    Honest(next, events) && HonestEvent(next, After(events), e)
  }

  // ----- invariants -----

  /** What holds of every active request, whatever its phase. */
  ghost predicate RequestOk(r: ActiveRequest, kv: seq<int>) {
    && r.spec.prompt != []
    && r.history == r.spec.prompt + r.generated
    && NoneIn(r.generated, r.spec.eos) && |r.generated| < r.spec.maxNew
    && |kv| < |r.history| && kv == r.history[..|kv|]
  }

  ghost predicate AwaitsDecode(r: ActiveRequest, kv: seq<int>, token: int) {
    r.generated != [] && token == Last(r.generated) && |kv| == |r.history| - 1
  }

  /** The phase of a request that no batch owns. */
  ghost predicate Settled(r: ActiveRequest, kv: seq<int>) {
    match r.phase
    case NeedsPrefill => true
    case AwaitingDecode(token) => AwaitsDecode(r, kv, token)
    case InFlight(_) => false
  }

  /** The row that owns an in-flight request says what the request's phase was. */
  ghost predicate RowOk(kind: Kind, r: ActiveRequest, kv: seq<int>, row: Row) {
    && row.start == |kv| && row.context == row.start + |row.tokens| && row.tokens != []
    && match kind
       case Prefill => row.context <= |r.history| && row.tokens == r.history[row.start..row.context]
       case Decode => AwaitsDecode(r, kv, row.tokens[0]) && |row.tokens| == 1
       case Verify =>
         && AwaitsDecode(r, kv, row.tokens[0]) && |row.tokens| >= 2
         && r.spec.greedy && |r.generated| + 2 <= r.spec.maxNew
  }

  /** Every active request is consistent, with the rows from `from` on exactly the ones in flight. */
  ghost predicate Good(s: State, kind: Kind, batch: nat, rows: seq<Row>, from: nat) {
    s.active.Keys == s.stored.Keys && RequestsOk(s) && OthersSettled(s, rows, from) && RowsInFlight(s, kind, batch, rows, from)
  }

  ghost predicate RequestsOk(s: State) {
    forall id :: id in s.active && id in s.stored ==> RequestOk(s.active[id], s.stored[id])
  }

  ghost predicate OthersSettled(s: State, rows: seq<Row>, from: nat) {
    forall id :: id in s.active && id in s.stored && !Owned(rows, from, id) ==> Settled(s.active[id], s.stored[id])
  }

  ghost predicate RowsInFlight(s: State, kind: Kind, batch: nat, rows: seq<Row>, from: nat) {
    forall i :: from <= i < |rows| ==> InFlightRow(s, kind, batch, rows[i])
  }

  ghost predicate InFlightRow(s: State, kind: Kind, batch: nat, row: Row) {
    && row.id in s.active && row.id in s.stored && s.active[row.id].phase == InFlight(batch)
    && RowOk(kind, s.active[row.id], s.stored[row.id], row)
  }

  ghost predicate Consistent(s: State) {
    match s.inFlight
    case None => Good(s, Prefill, 0, [], 0)
    case Some(batch) =>
      && Good(s, batch.kind, batch.id, batch.rows, 0) && batch.rows != [] && DistinctRows(batch.rows)
      && (forall i :: 0 <= i < |batch.rows| ==> |batch.rows[i].tokens| == batch.Width())
  }

  /** A finished result is cut where its request says, whoever chose the tokens. */
  ghost predicate FinishedOk(f: Finished, spec: Spec) {
    && f.prompt == spec.prompt
    && |f.generated| <= spec.maxNew
    && (f.generated != [] ==> NoneIn(f.generated[..|f.generated| - 1], spec.eos))
    && (|f.generated| < spec.maxNew ==> f.generated != [] && Last(f.generated) in spec.eos)
    && f.stoppedOnEos == (f.generated != [] && Last(f.generated) in spec.eos)
  }

  /** Every submitted request is in exactly one place. */
  ghost predicate Partition(all: set<nat>, pending: set<nat>, active: set<nat>, done: set<nat>, cancelled: set<nat>) {
    && all == pending + active + done + cancelled
    && pending !! active && done !! (pending + active) && cancelled !! (pending + active + done)
  }

  /** Each place knows its requests as they were submitted, each once. */
  ghost predicate Recorded(s: State) {
    && (forall id :: id in s.submitted ==> id < s.nextRequest)
    && (forall i, j :: 0 <= i < j < |s.pending| ==> s.pending[i].id != s.pending[j].id)
    && (forall i, j :: 0 <= i < j < |s.done| ==> s.done[i].id != s.done[j].id)
    && (forall i :: 0 <= i < |s.pending| ==>
      && s.pending[i].id in s.submitted && s.submitted[s.pending[i].id] == s.pending[i].spec
      && s.pending[i].spec.prompt != [] && s.pending[i].spec.maxNew > 0)
    && (forall id :: id in s.active ==> id in s.submitted && s.submitted[id] == s.active[id].spec)
    && (forall i :: 0 <= i < |s.done| ==> s.done[i].id in s.submitted && FinishedOk(s.done[i], s.submitted[s.done[i].id]))
  }

  ghost predicate Conserved(s: State) {
    Partition(s.submitted.Keys, PendingIds(s.pending), s.active.Keys, DoneIds(s.done), s.cancelled) && Recorded(s)
  }

  ghost predicate Inv(s: State) {
    Consistent(s) && Conserved(s)
  }

  /** Greedy requests have produced exactly the single-sequence decoder's tokens so far. */
  ghost predicate Streams(next: Model, s: State) {
    && (forall id :: id in s.active && s.active[id].spec.greedy ==>
      FollowsModel(next, s.active[id].spec.prompt, s.active[id].generated))
    && (forall i :: 0 <= i < |s.done| && s.done[i].id in s.submitted && s.submitted[s.done[i].id].greedy ==>
      FollowsModel(next, s.submitted[s.done[i].id].prompt, s.done[i].generated))
  }
}
