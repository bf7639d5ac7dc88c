/** Protective exits inside one bar, against the price path that the bar summarises. */
module Triggers {
  import opened Wrappers
  import opened RealArith
  import opened PaperExecution

  datatype Bar = Bar(open: real, high: real, low: real, close: real)

  ghost predicate ValidBar(b: Bar) {
    0.0 < b.low <= Min(b.open, b.close) && Max(b.open, b.close) <= b.high
  }

  datatype Reason = GapStop | GapTarget | Stop | StopFirst | Target

  /** Exit of a long or short position on one bar: the level and why. */
  function Trigger(b: Bar, long: bool, stop: real, target: real): Option<(real, Reason)> {
    if long then
      if b.open <= stop then Some((b.open, GapStop))
      else if b.open >= target then Some((target, GapTarget))
      else if b.low <= stop then Some((stop, if b.high >= target then StopFirst else Stop))
      else if b.high >= target then Some((target, Target))
      else None
    else
      if b.open >= stop then Some((b.open, GapStop))
      else if b.open <= target then Some((target, GapTarget))
      else if b.high >= stop then Some((stop, if b.low <= target then StopFirst else Stop))
      else if b.low <= target then Some((target, Target))
      else None
  }

  /** The Spot loop splits the same decision in two, for long positions only. */
  function OpeningTrigger(b: Bar, stop: real, target: real): Option<(real, Reason)> {
    if b.open <= stop then Some((b.open, GapStop))
    else if b.open >= target then Some((target, GapTarget))
    else None
  }

  function IntrabarTrigger(b: Bar, stop: real, target: real): Option<(real, Reason)> {
    var stopped, reached := b.low <= stop, b.high >= target;
    if stopped then Some((stop, if reached then StopFirst else Stop))
    else if reached then Some((target, Target))
    else None
  }

  /** The reasons as the Spot reports name them. */
  function Name(r: Reason): string {
    match r
    case GapStop => "GAP_STOP"
    case GapTarget => "GAP_TARGET"
    case Stop => "STOP"
    case StopFirst => "BOTH_TOUCHED_STOP_FIRST"
    case Target => "TARGET"
  }

  function Named(t: Option<(real, Reason)>): Option<(real, string)> {
    if t.Some? then Some((t.value.0, Name(t.value.1))) else None
  }

  // ---------------------------------------------------------------- paths

  /** Prices in the order they trade; between two of them the price moves continuously. */
  ghost predicate PathOf(b: Bar, path: seq<real>) {
    && path != [] && path[0] == b.open
    && (forall p :: p in path ==> b.low <= p <= b.high)
    && b.low in path && b.high in path
  }

  predicate AtStop(long: bool, p: real, stop: real) {
    if long then p <= stop else p >= stop
  }

  predicate AtTarget(long: bool, p: real, target: real) {
    if long then p >= target else p <= target
  }

  /** The first level that the rest of a path fills, from a price between both levels. */
  ghost function FillAlong(path: seq<real>, long: bool, stop: real, target: real): Option<real> {
    if path == [] then None
    else if AtStop(long, path[0], stop) then Some(stop)
    else if AtTarget(long, path[0], target) then Some(target)
    else FillAlong(path[1..], long, stop, target)
  }

  /** The first fill of a whole path: an opening beyond a level fills at the opening. */
  ghost function FirstFill(path: seq<real>, long: bool, stop: real, target: real): Option<real>
    requires path != []
  {
    if AtStop(long, path[0], stop) || AtTarget(long, path[0], target) then Some(path[0])
    else FillAlong(path[1..], long, stop, target)
  }

  predicate NoBetter(long: bool, a: real, b: real) {
    if long then a <= b else a >= b
  }

  lemma {:induction false} FillAlongIff(path: seq<real>, long: bool, stop: real, target: real)
    ensures FillAlong(path, long, stop, target).Some?
       <==> exists p :: p in path && (AtStop(long, p, stop) || AtTarget(long, p, target))
    ensures FillAlong(path, long, stop, target).Some? ==>
      FillAlong(path, long, stop, target).value in {stop, target}
    ensures FillAlong(path, long, stop, target) == Some(stop) && stop != target ==>
      exists p :: p in path && AtStop(long, p, stop)
  {
    if path != [] {
      FillAlongIff(path[1..], long, stop, target);
      assert path == [path[0]] + path[1..];
    }
  }

  /** For every price path with the bar's open, high and low: the modelled exit happens
      exactly when the path fills a level, and its level is never better for the position
      than the first fill of the path. */
  lemma TriggerIsPessimistic(b: Bar, path: seq<real>, long: bool, stop: real, target: real)
    requires PathOf(b, path)
    requires if long then stop < target else target < stop
    ensures Trigger(b, long, stop, target).Some? <==> FirstFill(path, long, stop, target).Some?
    ensures Trigger(b, long, stop, target).Some? ==>
      NoBetter(long, Trigger(b, long, stop, target).value.0, FirstFill(path, long, stop, target).value)
  {
    var rest := path[1..];
    FillAlongIff(rest, long, stop, target);
    assert path == [path[0]] + rest;
    if !AtStop(long, b.open, stop) && !AtTarget(long, b.open, target) {
      var worst, best := if long then b.low else b.high, if long then b.high else b.low;
      assert worst == path[0] || worst in rest;
      assert best == path[0] || best in rest;
      forall p | p in rest
        ensures AtStop(long, p, stop) ==> AtStop(long, worst, stop)
        ensures AtTarget(long, p, target) ==> AtTarget(long, best, target)
      {
        assert p in path;
      }
    }
  }

  /** The two Spot triggers in sequence are the long trigger. */
  lemma SpotTriggersCompose(b: Bar, stop: real, target: real)
    ensures Trigger(b, true, stop, target)
         == if OpeningTrigger(b, stop, target).Some? then OpeningTrigger(b, stop, target)
            else IntrabarTrigger(b, stop, target)
  {
  }

  /** The bound is attained: some path first fills at the very level, unless the bar opens beyond the
      target, where the better opening is not used.  The reason tells which levels the bar touches. */
  lemma TriggerIsTight(b: Bar, long: bool, stop: real, target: real) returns (path: seq<real>)
    requires b.low <= Min(b.open, b.close) && Max(b.open, b.close) <= b.high
    requires if long then stop < target else target < stop
    requires Trigger(b, long, stop, target).Some?
    ensures var (level, reason) := Trigger(b, long, stop, target).value;
      var worst, best := if long then b.low else b.high, if long then b.high else b.low;
      && PathOf(b, path)
      && (reason != GapTarget ==> FirstFill(path, long, stop, target) == Some(level))
      && (reason == GapTarget <==> AtTarget(long, b.open, target)) && (reason == GapTarget ==> level == target)
      && (reason == GapStop <==> AtStop(long, b.open, stop))
      && var inside := !AtStop(long, b.open, stop) && !AtTarget(long, b.open, target);
         && (reason == StopFirst <==> inside && AtStop(long, worst, stop) && AtTarget(long, best, target))
         && (reason == Stop <==> inside && AtStop(long, worst, stop) && !AtTarget(long, best, target))
         && (reason == Target <==> inside && !AtStop(long, worst, stop) && AtTarget(long, best, target))
  {
    var worst, best := if long then b.low else b.high, if long then b.high else b.low;
    path := [b.open, worst, best];
    assert path[1..] == [worst, best] && path[1..][1..] == [best] && path[1..][1..][1..] == [];
    assert FillAlong([best], long, stop, target)
      == if AtStop(long, best, stop) then Some(stop) else if AtTarget(long, best, target) then Some(target) else None;
  }
}
