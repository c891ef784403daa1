/** Any number of clerks and one server over a network that loses requests and replies, as a
    state machine. The lookup in the cache and the locked update are separate steps. */
module KvService {
  import opened Linearizability
  import opened Kv
  import opened KvServer

  /** Where a clerk is. A call ends only after its handler has, so a clerk has at most one
      handler running; Lookup found nothing in Missed, and Done has been handled in Released. */
  datatype Phase = Idle | Calling | Missed | Answered(value: string) | Finishing(value: string) | Released(value: string)

  /** place is where the call took effect among all effects, or -1; no step reads it. */
  datatype Clerk = Clerk(phase: Phase, id: int, input: KvInput, call: int, place: int)

  /** A request taking effect: whose, which, what it answered and when. */
  datatype Effect = Effect(client: nat, id: int, input: KvInput, call: int, value: string, at: int)

  /** effects and places are a record of what happened; no step reads them. */
  datatype World = World(
    clerks: seq<Clerk>, store: map<string, string>, cache: map<int, string>, used: set<int>, clock: int,
    completed: seq<Op>, effects: seq<Effect>, places: seq<nat>)

  const IDLE := Clerk(Idle, 0, KvInput(0, "", ""), 0, -1)

  function Init(n: nat): World {
    World(seq(n, _ => IDLE), map[], map[], {}, 0, [], [], [])
  }

  datatype Step =
    | Tick(later: int)
    | Begin(i: nat, id: int, input: KvInput)
    | LookUp(i: nat)
    | Update(i: nat)
    | Lose(i: nat)
    | Receive(i: nat)
    | HandleDone(i: nat)
    | Return(i: nat)

  /** What the clients write down: a put's answer is not kept. */
  function Kept(inp: KvInput, value: string): KvOutput {
    if inp.op == 1 then KvOutput("") else KvOutput(value)
  }

  function Recorded(e: Effect, ret: int): Op {
    Operation(e.client, e.input, e.call, Kept(e.input, e.value), ret)
  }

  function Slot(c: Clerk): nat { if c.place < 0 then 0 else c.place }

  predicate Enabled(w: World, step: Step) {
    if step.Tick? then w.clock <= step.later
    else
      && step.i < |w.clerks|
      && var phase := w.clerks[step.i].phase;
         match step
         case Begin(_, id, input) => phase.Idle? && id !in w.used && Offered(input)
         case LookUp(_) => phase.Calling?
         case Update(_) => phase.Missed?
         case Lose(_) => phase.Calling? || phase.Answered? || phase.Finishing? || phase.Released?
         case Receive(_) => phase.Answered?
         case HandleDone(_) => phase.Finishing?
         case Return(_) => phase.Released?
  }

  /** The clerk that takes the step, afterwards. */
  function Moved(w: World, step: Step): Clerk
    requires !step.Tick? && Enabled(w, step)
  {
    var c := w.clerks[step.i];
    match step
    case Begin(_, id, input) => Clerk(Calling, id, input, w.clock, -1)
    case LookUp(_) => c.(phase := if c.id in w.cache then Answered(w.cache[c.id]) else Missed)
    case Update(_) => c.(phase := Answered(Answer(w.store, c.input)), place := |w.effects|)
    case Lose(_) =>
      (match c.phase
       case Answered(_) => c.(phase := Calling)
       case Released(value) => c.(phase := Finishing(value))
       case _ => c)
    case Receive(_) => c.(phase := Finishing(c.phase.value))
    case HandleDone(_) => c.(phase := Released(c.phase.value))
    case Return(_) => IDLE
  }

  function Next(w: World, step: Step): World
    requires Enabled(w, step)
  {
    if step.Tick? then w.(clock := step.later)
    else
      var i := step.i;
      var c := w.clerks[i];
      var d := w.(clerks := w.clerks[i := Moved(w, step)]);
      match step
      case Begin(_, id, _) => d.(used := w.used + {id})
      case Update(_) =>
        var value := Answer(w.store, c.input);
        d.(store := Effected(w.store, c.input), cache := w.cache[c.id := value],
           effects := w.effects + [Effect(i, c.id, c.input, c.call, value, w.clock)])
      case HandleDone(_) => d.(cache := w.cache - {c.id})
      case Return(_) =>
        d.(completed := w.completed + [Operation(i, c.input, c.call, Kept(c.input, c.phase.value), w.clock)],
           places := w.places + [Slot(c)])
      case _ => d
  }

  ghost predicate Follows(v: World, w: World) {
    exists step :: Enabled(v, step) && w == Next(v, step)
  }

  ghost predicate IsRun(n: nat, run: seq<World>) {
    && |run| > 0 && run[0] == Init(n)
    && forall k, l :: 0 <= k && l == k + 1 && l < |run| ==> Follows(run[k], run[l])
  }

  // ---- what the effects amount to

  /** The model's store after the effects, in order. */
  ghost function ModelAfter(effects: seq<Effect>): map<string, string> {
    if effects == [] then map[]
    else
      var e := effects[|effects| - 1];
      StoreStep(ModelAfter(effects[..|effects| - 1]), e.input, Kept(e.input, e.value)).1
  }

  /** Every effect answered what the model, at that point, accepts. */
  ghost predicate Explained(effects: seq<Effect>) {
    forall k :: 0 <= k < |effects| ==> ExplainedAt(effects, k)
  }

  ghost predicate ExplainedAt(effects: seq<Effect>, k: nat)
    requires k < |effects|
  {
    StoreStep(ModelAfter(effects[..k]), effects[k].input, Kept(effects[k].input, effects[k].value)).0
  }

  /** Reading a store cannot tell the two apart. */
  ghost predicate SameView(a: map<string, string>, b: map<string, string>) {
    forall k :: Lookup(a, k) == Lookup(b, k)
  }

  /** Effects happen in the order of time, each after its call, and each for another request. */
  ghost predicate Ordered(effects: seq<Effect>, clock: int, used: set<int>) {
    && (forall k :: 0 <= k < |effects| ==> effects[k].call <= effects[k].at <= clock && effects[k].id in used)
    && (forall j, k :: 0 <= j < k < |effects| ==> effects[j].at <= effects[k].at && effects[j].id != effects[k].id)
  }

  // ---- the invariant

  /** The clerk's request has taken effect at p and answered the value. */
  ghost predicate TookEffect(effects: seq<Effect>, i: nat, c: Clerk, p: int) {
    0 <= p < |effects| && var e := effects[p]; e.client == i && e.id == c.id && e.input == c.input && e.call == c.call
  }

  ghost predicate ClerkOk(w: World, i: nat, c: Clerk) {
    if c.phase.Idle? then c.place == -1
    else
      && c.id in w.used && c.call <= w.clock && Offered(c.input)
      && (forall k :: 0 <= k < |w.effects| && w.effects[k].id == c.id ==> k == c.place)
      && (if c.place == -1 then (c.phase.Calling? || c.phase.Missed?) && c.id !in w.cache
          else
            && TookEffect(w.effects, i, c, c.place) && !c.phase.Missed?
            && var value := w.effects[c.place].value;
               match c.phase
               case Calling => c.id in w.cache && w.cache[c.id] == value
               case Answered(v) => c.id in w.cache && w.cache[c.id] == value == v
               case Finishing(v) => v == value
               case Released(v) => v == value && c.id !in w.cache)
  }

  /** No two clerks have the same request or the same effect. */
  ghost predicate Apart(clerks: seq<Clerk>) {
    forall i, j :: 0 <= i < j < |clerks| && !clerks[i].phase.Idle? && !clerks[j].phase.Idle? ==>
      clerks[i].id != clerks[j].id && (clerks[i].place >= 0 ==> clerks[i].place != clerks[j].place)
  }

  /** The clerk's request has taken effect and its Done has not been handled. */
  ghost predicate Awaits(c: Clerk, id: int) {
    c.id == id && c.place >= 0 && (c.phase.Calling? || c.phase.Answered? || c.phase.Finishing?)
  }

  ghost predicate Awaited(clerks: seq<Clerk>, id: int) {
    exists i :: 0 <= i < |clerks| && Awaits(clerks[i], id)
  }

  ghost predicate CompletedOk(w: World, k: nat)
    requires k < |w.completed| == |w.places|
  {
    && w.places[k] < |w.effects|
    && w.completed[k] == Recorded(w.effects[w.places[k]], w.completed[k].ret)
    && w.effects[w.places[k]].at <= w.completed[k].ret
  }

  ghost predicate Covered(w: World, e: nat) {
    e in w.places || exists i :: 0 <= i < |w.clerks| && w.clerks[i].place == e
  }

  ghost predicate RecordOk(w: World) {
    && |w.completed| == |w.places| && Distinct(w.places)
    && (forall k :: 0 <= k < |w.completed| ==> CompletedOk(w, k))
    && (forall i :: 0 <= i < |w.clerks| && w.clerks[i].place >= 0 ==> w.clerks[i].place !in w.places)
    && (forall e: nat :: e < |w.effects| ==> Covered(w, e))
  }

  ghost predicate Inv(w: World) {
    && (forall i :: 0 <= i < |w.clerks| ==> ClerkOk(w, i, w.clerks[i]))
    && Apart(w.clerks)
    && (forall id :: id in w.cache ==> Awaited(w.clerks, id))
    && Ordered(w.effects, w.clock, w.used)
    && Explained(w.effects) && SameView(w.store, ModelAfter(w.effects))
    && RecordOk(w)
  }
}
