/** The turn's tool-failure counters, against their definition on the history of
    all results. */
module Failures {
  import opened Wrappers

  datatype Result = Result(tool: string, success: bool, detail: string, unbound: bool)

  datatype Rule = SafeMode | StuckTool

  const FAIL_THRESHOLD := 3
  const UNBOUND_REJECT_LIMIT := 3

  predicate Fails(r: Result) { !r.success && !r.unbound }
  predicate Succeeds(r: Result) { r.success && !r.unbound }

  /** Failures since the last success; refusals skipped. */
  function Streak(h: seq<Result>): nat {
    if h == [] || Succeeds(h[|h| - 1]) then 0
    else Streak(h[..|h| - 1]) + if Fails(h[|h| - 1]) then 1 else 0
  }

  /** Those of the tools in `tools`. */
  function Since(h: seq<Result>, tools: set<string>): nat {
    if h == [] || Succeeds(h[|h| - 1]) then 0
    else Since(h[..|h| - 1], tools) + if Fails(h[|h| - 1]) && h[|h| - 1].tool in tools then 1 else 0
  }

  function SinceOf(h: seq<Result>, tool: string): nat { Since(h, {tool}) }

  /** The tool of the newest failure, while no success followed it. */
  function LastFailed(h: seq<Result>): Option<string> {
    if h == [] || Succeeds(h[|h| - 1]) then None
    else if Fails(h[|h| - 1]) then Some(h[|h| - 1].tool)
    else LastFailed(h[..|h| - 1])
  }

  /** How many failures in a row the newest failing tool had. */
  function SameToolRun(h: seq<Result>): nat {
    if h == [] || Succeeds(h[|h| - 1]) then 0
    else
      var rest := h[..|h| - 1];
      if !Fails(h[|h| - 1]) then SameToolRun(rest)
      else if LastFailed(rest) == Some(h[|h| - 1].tool) then SameToolRun(rest) + 1
      else 1
  }

  /** Passes in which `tool` was refused. */
  function RefusedPasses(passes: seq<seq<Result>>, tool: string): nat {
    if passes == [] then 0
    else RefusedPasses(passes[..|passes| - 1], tool) + if RefusedIn(passes[|passes| - 1], tool) then 1 else 0
  }

  predicate RefusedIn(pass: seq<Result>, tool: string) { exists r | r in pass :: r.unbound && r.tool == tool }

  function Flat(passes: seq<seq<Result>>): seq<Result> {
    if passes == [] then [] else Flat(passes[..|passes| - 1]) + passes[|passes| - 1]
  }

  lemma FlatSnoc(passes: seq<seq<Result>>, pass: seq<Result>)
    ensures Flat(passes + [pass]) == Flat(passes) + pass
    ensures forall t :: RefusedPasses(passes + [pass], t) == RefusedPasses(passes, t) + if RefusedIn(pass, t) then 1 else 0
  {
    assert (passes + [pass])[..|passes|] == passes;
  }

  /** One more result. */
  lemma Snoc(h: seq<Result>, r: Result)
    ensures Streak(h + [r]) == if Succeeds(r) then 0 else Streak(h) + if Fails(r) then 1 else 0
    ensures forall ts :: Since(h + [r], ts) ==
              if Succeeds(r) then 0 else Since(h, ts) + if Fails(r) && r.tool in ts then 1 else 0
    ensures LastFailed(h + [r]) == if Succeeds(r) then None else if Fails(r) then Some(r.tool) else LastFailed(h)
    ensures SameToolRun(h + [r]) ==
              if Succeeds(r) then 0 else if !Fails(r) then SameToolRun(h)
              else if LastFailed(h) == Some(r.tool) then SameToolRun(h) + 1 else 1
  {
    assert (h + [r])[..|h|] == h;
  }

  /** The same-tool rule can never trip before the consecutive-failure rule. */
  lemma {:induction false} RunWithinStreak(h: seq<Result>)
    ensures SameToolRun(h) <= Streak(h)
    ensures LastFailed(h).None? <==> Streak(h) == 0
    ensures LastFailed(h).None? <==> SameToolRun(h) == 0
  {
    if h != [] { RunWithinStreak(h[..|h| - 1]); }
  }

  lemma {:induction false} SplitTool(h: seq<Result>, ts: set<string>, t: string)
    requires t !in ts
    ensures Since(h, ts + {t}) == Since(h, ts) + SinceOf(h, t)
  {
    if h != [] { SplitTool(h[..|h| - 1], ts, t); }
  }

  lemma {:induction false} SinceNone(h: seq<Result>)
    ensures Since(h, {}) == 0
  {
    if h != [] { SinceNone(h[..|h| - 1]); }
  }

  /** While no tool has failed three times, `n` tools have failed at most `2n`
      times between them. */
  lemma {:induction false} StuckBound(h: seq<Result>, tools: set<string>)
    requires forall t | t in tools :: SinceOf(h, t) < FAIL_THRESHOLD
    ensures Since(h, tools) <= 2 * |tools|
  {
    if tools == {} {
      SinceNone(h);
    } else {
      var t :| t in tools;
      StuckBound(h, tools - {t});
      SplitTool(h, tools - {t}, t);
      assert tools - {t} + {t} == tools;
    }
  }

  lemma {:induction false} OnlyTheseTools(h: seq<Result>, tools: set<string>)
    requires forall r | r in h :: r.tool in tools
    ensures Since(h, tools) == Streak(h)
  {
    if h != [] {
      assert h[|h| - 1] in h;
      OnlyTheseTools(h[..|h| - 1], tools);
    }
  }

  /** How many passes refused each tool. */
  ghost predicate Counted(unbound: map<string, nat>, passes: seq<seq<Result>>) {
    && (forall t | t in unbound :: unbound[t] == RefusedPasses(passes, t))
    && (forall t | t !in unbound :: RefusedPasses(passes, t) == 0)
  }

  /** The same in the middle of a pass, with the tools it refused so far. */
  ghost predicate Tally(unbound: map<string, nat>, refused: set<string>, passes: seq<seq<Result>>, pass: seq<Result>) {
    && (forall t :: t in refused <==> RefusedIn(pass, t))
    && (forall t | t in unbound :: unbound[t] == RefusedPasses(passes, t) + if t in refused then 1 else 0)
    && (forall t | t !in unbound :: RefusedPasses(passes, t) == 0 && t !in refused)
  }

  lemma TallyMore(unbound: map<string, nat>, refused: set<string>, passes: seq<seq<Result>>, pass: seq<Result>, r: Result)
    requires Tally(unbound, refused, passes, pass)
    ensures if r.unbound && r.tool !in refused
            then Tally(unbound[r.tool := (if r.tool in unbound then unbound[r.tool] else 0) + 1], refused + {r.tool}, passes, pass + [r])
            else Tally(unbound, refused, passes, pass + [r])
  {
    forall t ensures RefusedIn(pass + [r], t) <==> RefusedIn(pass, t) || (r.unbound && r.tool == t) { RefusedMore(pass, r, t); }
  }

  lemma RefusedMore(pass: seq<Result>, r: Result, t: string)
    ensures RefusedIn(pass + [r], t) <==> RefusedIn(pass, t) || (r.unbound && r.tool == t)
  {
    if r.unbound && r.tool == t {
      assert (pass + [r])[|pass|] == r;
    }
    assert forall k | 0 <= k < |pass| :: (pass + [r])[k] == pass[k];
  }

  lemma TallyDone(unbound: map<string, nat>, refused: set<string>, passes: seq<seq<Result>>, pass: seq<Result>)
    requires Tally(unbound, refused, passes, pass)
    ensures Counted(unbound, passes + [pass])
  {
    FlatSnoc(passes, pass);
  }

  ghost predicate AnyStuck(h: seq<Result>) { exists t :: SinceOf(h, t) >= FAIL_THRESHOLD }

  ghost predicate AnyRefused(passes: seq<seq<Result>>) {
    exists t :: RefusedPasses(passes, t) >= UNBOUND_REJECT_LIMIT
  }

  class Counters {
    const rule: Rule
    var perTool: map<string, nat>
    var lastFailed: Option<string>
    var run: nat
    var unbound: map<string, nat>
    ghost var passes: seq<seq<Result>>

    /** The counters say what the history `h` says. */
    ghost predicate Count(h: seq<Result>)
      reads this
    {
      if rule.StuckTool? then
        && lastFailed.None? && run == 0
        && (forall t | t in perTool :: perTool[t] == SinceOf(h, t))
        && (forall t | t !in perTool :: SinceOf(h, t) == 0)
      else
        && run == Streak(h) && lastFailed == LastFailed(h)
        && perTool == if LastFailed(h).None? then map[] else map[LastFailed(h).value := SameToolRun(h)]
    }

    ghost predicate Valid()
      reads this
    {
      Count(Flat(passes)) && Counted(unbound, passes)
    }

    constructor (rule: Rule)
      ensures Valid() && this.rule == rule && passes == []
    {
      this.rule := rule;
      perTool, lastFailed, run, unbound, passes := map[], None, 0, map[], [];
    }

    method Add(results: seq<Result>)
      requires Valid()
      modifies this
      ensures Valid() && passes == old(passes) + [results]
    {
      ghost var h := Flat(passes);
      var refused: set<string> := {};
      assert h + results[..0] == h;
      for n := 0 to |results|
        invariant Count(h + results[..n])
        invariant Tally(unbound, refused, passes, results[..n])
        invariant passes == old(passes)
      {
        refused := AddResult(results[n], refused, h + results[..n], results[..n]);
        assert h + results[..n + 1] == h + results[..n] + [results[n]];
        assert results[..n + 1] == results[..n] + [results[n]];
      }
      assert results[..|results|] == results;
      Close(refused, results);
    }

    method Close(ghost refused: set<string>, ghost results: seq<Result>)
      requires Count(Flat(passes) + results) && Tally(unbound, refused, passes, results)
      modifies this`passes
      ensures Valid() && passes == old(passes) + [results]
    {
      TallyDone(unbound, refused, passes, results);
      FlatSnoc(passes, results);
      passes := passes + [results];
    }

    /** A refusal counts once a pass. */
    method AddResult(r: Result, refused: set<string>, ghost h: seq<Result>, ghost pass: seq<Result>) returns (refused2: set<string>)
      requires Count(h) && Tally(unbound, refused, passes, pass)
      modifies this`perTool, this`lastFailed, this`run, this`unbound
      ensures Count(h + [r]) && Tally(unbound, refused2, passes, pass + [r])
    {
      AddOne(r, h);
      TallyMore(unbound, refused, passes, pass, r);
      refused2 := refused;
      if r.unbound && r.tool !in refused {
        refused2 := refused + {r.tool};
        unbound := unbound[r.tool := (if r.tool in unbound then unbound[r.tool] else 0) + 1];
      }
    }

    /** One result of the pass, behind the history `h`. */
    method AddOne(r: Result, ghost h: seq<Result>)
      requires Count(h)
      modifies this`perTool, this`lastFailed, this`run
      ensures Count(h + [r])
    {
      Snoc(h, r);
      RunWithinStreak(h);
      if r.unbound {
      } else if r.success {
        perTool, lastFailed, run := map[], None, 0;
      } else if rule.StuckTool? {
        perTool := perTool[r.tool := (if r.tool in perTool then perTool[r.tool] else 0) + 1];
      } else {
        run := run + 1;
        if Some(r.tool) == lastFailed {
          perTool := perTool[r.tool := (if r.tool in perTool then perTool[r.tool] else 1) + 1];
        } else {
          lastFailed := Some(r.tool);
          perTool := map[r.tool := 1];
        }
      }
    }

    method Stuck() returns (o: Option<string>)
      requires Valid()
      ensures rule.StuckTool? ==> (o.Some? <==> AnyStuck(Flat(passes)))
      ensures rule.SafeMode? ==> (o.Some? <==> SameToolRun(Flat(passes)) >= FAIL_THRESHOLD)
    {
      RunWithinStreak(Flat(passes));
      var hits := set t | t in perTool && perTool[t] >= FAIL_THRESHOLD;
      assert forall t | t in perTool :: perTool[t] >= FAIL_THRESHOLD <==> t in hits;
      if hits == {} {
        assert LastFailed(Flat(passes)).Some? && rule.SafeMode? ==> LastFailed(Flat(passes)).value in perTool;
        return None;
      }
      var t :| t in hits;
      return Some(t);
    }

    /** Safe mode trips exactly on three failures since the last success. */
    method SafeModeReason() returns (o: Option<string>)
      requires Valid() && rule.SafeMode?
      ensures o.Some? <==> Streak(Flat(passes)) >= FAIL_THRESHOLD
    {
      RunWithinStreak(Flat(passes));
      var stuck := Stuck();
      if stuck.Some? { return Some("same tool " + stuck.value + " failed 3x in a row"); }
      if run >= FAIL_THRESHOLD { return Some("consecutive tool failures"); }
      return None;
    }

    method Refused() returns (o: Option<string>)
      requires Valid()
      ensures o.Some? <==> AnyRefused(passes)
    {
      var hits := set t | t in unbound && unbound[t] >= UNBOUND_REJECT_LIMIT;
      assert forall t | t in unbound :: unbound[t] >= UNBOUND_REJECT_LIMIT <==> t in hits;
      if hits == {} { return None; }
      var t :| t in hits;
      assert RefusedPasses(passes, t) >= UNBOUND_REJECT_LIMIT;
      return Some(t);
    }
  }

  /** Whichever tools an agent calls, its failures since the last success stay
      within two for each of them until the rule ends the turn. */
  lemma StuckTurnBound(h: seq<Result>, tools: set<string>)
    requires forall r | r in h :: r.tool in tools
    requires !AnyStuck(h)
    ensures Streak(h) <= 2 * |tools|
  {
    StuckBound(h, tools);
    OnlyTheseTools(h, tools);
  }
}
