/** One turn's tool calls against its binding, and the taint that narrows it. */
module Executor {
  import opened Wrappers
  import opened Permissions
  import Failures

  datatype Decision = Allow | Deny | Unbound

  /** What a call asks of the executor: its tool, whether it asks for untrusted
      content, and what the tool's own run answers; None for a side-effect tool. */
  datatype Ask = Ask(tool: Option<Tool>, taints: bool, reply: Option<Failures.Result>)

  /** One call as it was decided, and whether the turn was tainted when it came. */
  datatype Ran = Ran(ask: Ask, decision: Decision, tainted: bool)

  /** The memory directories a built-in tool's call may write. */
  predicate MayWrite(t: Tool, dir: string, tier: string, tainted: bool) {
    match t
    case NoteMemory => dir == if tainted then "external_owner" else TierDir(tier)
    case WriteDiary => dir == TierDir(tier)
    case WriteSchedule => dir == "shared" || dir == "schedule"
    case NoteToolLesson => dir == "shared"
    case Shell => true
    case SpawnWorkflow => true
    case _ => false
  }

  function TierDir(tier: string): string { if tier == "internal" then "shared" else tier }

  /** A tool that was not shown is denied. One that was runs when it is bound and the
      turn is not tainted, or the tool is harmless behind taint; a stranger's turn is
      exempt from taint: its row is the floor. Any other is refused. */
  predicate Rightly(principal: Principal, offered: set<Tool>, bound: set<Tool>, x: Ran) {
    && (x.decision.Deny? <==> x.ask.tool.None? || x.ask.tool.value !in offered)
    && (x.decision.Allow? <==>
          && x.ask.tool.Some? && x.ask.tool.value in offered && x.ask.tool.value in bound
          && (principal == ExternalPublic || !x.tainted || x.ask.tool.value in {Recall, NoteMemory, Report}))
  }

  /** What taints a turn: its page, or one of the first `n` calls that ran. */
  ghost predicate Spoilt(principal: Principal, byPage: bool, ran: seq<Ran>, n: nat)
    requires n <= |ran|
  {
    principal != ExternalPublic && (byPage || exists j :: 0 <= j < n && ran[j].decision.Allow? && ran[j].ask.taints)
  }

  /** Every call was decided rightly, tainted exactly behind what taints. */
  ghost predicate RanRightly(principal: Principal, offered: set<Tool>, bound: set<Tool>, byPage: bool, ran: seq<Ran>) {
    && (forall i | 0 <= i < |ran| :: Rightly(principal, offered, bound, ran[i]))
    && (forall i | 0 <= i < |ran| :: ran[i].tainted <==> Spoilt(principal, byPage, ran, i))
  }

  /** A later call does not change what tainted the turn before. */
  lemma SpoiltBefore(principal: Principal, byPage: bool, ran: seq<Ran>, x: Ran, n: nat)
    requires n <= |ran|
    ensures Spoilt(principal, byPage, ran + [x], n) <==> Spoilt(principal, byPage, ran, n)
  {
    if principal != ExternalPublic && !byPage {
      if j :| 0 <= j < n && ran[j].decision.Allow? && ran[j].ask.taints { assert (ran + [x])[j] == ran[j]; }
      if j :| 0 <= j < n && (ran + [x])[j].decision.Allow? && (ran + [x])[j].ask.taints { assert (ran + [x])[j] == ran[j]; }
    }
  }

  lemma SpoiltBy(principal: Principal, byPage: bool, ran: seq<Ran>, x: Ran)
    ensures Spoilt(principal, byPage, ran + [x], |ran| + 1) <==>
              Spoilt(principal, byPage, ran, |ran|) || (principal != ExternalPublic && x.decision.Allow? && x.ask.taints)
  {
    var more := ran + [x];
    assert more[|ran|] == x;
    SpoiltBefore(principal, byPage, ran, x, |ran|);
    if Spoilt(principal, byPage, more, |ran| + 1) && !byPage {
      var j :| 0 <= j < |ran| + 1 && more[j].decision.Allow? && more[j].ask.taints;
      if j < |ran| { assert Spoilt(principal, byPage, more, |ran|); }
    }
    if Spoilt(principal, byPage, more, |ran|) && !byPage {
      var j :| 0 <= j < |ran| && more[j].decision.Allow? && more[j].ask.taints;
      assert j < |ran| + 1;
    }
  }

  lemma RanMore(principal: Principal, offered: set<Tool>, bound: set<Tool>, byPage: bool, ran: seq<Ran>, x: Ran)
    requires RanRightly(principal, offered, bound, byPage, ran) && Rightly(principal, offered, bound, x)
    requires x.tainted <==> Spoilt(principal, byPage, ran, |ran|)
    ensures RanRightly(principal, offered, bound, byPage, ran + [x])
  {
    var more := ran + [x];
    forall i | 0 <= i < |more| ensures Rightly(principal, offered, bound, more[i]) && (more[i].tainted <==> Spoilt(principal, byPage, more, i)) {
      SpoiltBefore(principal, byPage, ran, x, i);
      assert more[i] == if i < |ran| then ran[i] else x;
    }
  }

  class ToolExecutor {
    const principal: Principal
    const offered: set<Tool>
    const bound: set<Tool>
    const names: map<string, Tool>
    const byPage: bool                  // the page was tainted before the turn
    var tainted: bool
    ghost var ran: seq<Ran>

    /** Every call was decided rightly, and the flag has always been up exactly behind
        what taints. */
    ghost predicate Valid()
      reads this
    {
      && bound <= offered && RanRightly(principal, offered, bound, byPage, ran)
      && (tainted <==> Spoilt(principal, byPage, ran, |ran|))
    }

    constructor (principal: Principal, offered: set<Tool>, bound: set<Tool>,
                 names: map<string, Tool>, byPage: bool)
      requires bound <= offered && (byPage ==> principal != ExternalPublic)
      ensures Valid() && ran == [] && tainted == byPage
      ensures this.principal == principal && this.offered == offered && this.bound == bound && this.names == names && this.byPage == byPage
    {
      this.principal, this.offered, this.bound, this.names, this.byPage := principal, offered, bound, names, byPage;
      tainted, ran := byPage, [];
    }

    function Resolve(name: string): Option<Tool> { if name in names then Some(names[name]) else None }

    predicate IsTainted()
      reads this`tainted
    {
      tainted && principal != ExternalPublic
    }

    function EffectiveBound(): set<Tool>
      reads this`tainted
    {
      if !IsTainted() then bound else set t | t in bound && Tainted(t)
    }

    function Decide(t: Option<Tool>): Decision
      reads this`tainted
    {
      if t.None? || t.value !in offered then Deny
      else if t.value !in EffectiveBound() then Unbound
      else Allow
    }

    /** `reply`: what the tool's own run answers. */
    method Run(name: string, taints: bool, reply: Option<Failures.Result>) returns (r: Option<Failures.Result>)
      requires Valid()
      modifies this`tainted, this`ran
      ensures Valid() && |ran| == |old(ran)| + 1 && old(ran) == ran[..|old(ran)|]
      ensures var x := ran[|old(ran)|];
              && x.ask == Ask(if name in names then Some(names[name]) else None, taints, reply)
              && x.tainted == old(tainted) && Rightly(principal, offered, bound, x)
              && tainted == (old(tainted) || (x.decision.Allow? && taints && principal != ExternalPublic))
              && match x.decision
                 case Unbound => r.Some? && r.value.unbound && !r.value.success && r.value.tool == name
                 case Deny => r.Some? && !r.value.unbound && !r.value.success && r.value.tool == name
                 case Allow => r == reply
    {
      var tool := Resolve(name);
      var decision := Decide(tool);
      ghost var x := Ran(Ask(tool, taints, reply), decision, tainted);
      RanMore(principal, offered, bound, byPage, ran, x);
      SpoiltBy(principal, byPage, ran, x);
      ran := ran + [x];
      if decision.Unbound? {
        return Some(Failures.Result(name, false, name + " is not available in this turn", true));
      }
      if decision.Deny? {
        return Some(Failures.Result(name, false, "Unknown tool " + name, false));
      }
      if !tainted && principal != ExternalPublic && taints { tainted := true; }
      return reply;
    }
  }

  /** Behind a tainting read, and on a stranger's turn, no built-in call writes
      under `shared/`; a note goes to `external_owner/`, a stranger's turn's note
      and diary to `external_public/`. */
  lemma SharedStaysClean(e: ToolExecutor, i: nat, dir: string)
    requires e.Valid() && i < |e.ran| && e.ran[i].decision.Allow?
    requires forall t | t in e.bound && !t.Remote? :: e.principal in Row(t)
    requires e.ran[i].tainted || e.principal == ExternalPublic
             || exists j | 0 <= j < i :: e.ran[j].decision.Allow? && e.ran[j].ask.taints
    requires MayWrite(e.ran[i].ask.tool.value, dir, OriginTier(e.principal), e.ran[i].tainted)
    ensures dir == if e.principal == ExternalPublic then "external_public" else "external_owner"
    ensures dir != "shared"
  {
  }
}
