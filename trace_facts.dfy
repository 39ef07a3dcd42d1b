/** Facts about single steps of a provisioning run that every reconciler's proofs share. */
module TraceFacts {
  import opened Cloud
  import opened Bootstrap

  /** The new calls of `t'` over `t` all go to service `s`. */
  ghost predicate IssuedOnly(t: Trace, t': Trace, s: Service) {
    forall i :: |t.log| <= i < |t'.log| ==> ServiceOf(t'.log[i]) == s
  }

  lemma ExtendsTransitive(a: Trace, b: Trace, c: Trace)
    requires Extends(a, b) && Extends(b, c)
    ensures Extends(a, c)
  {
  }

  lemma IssuedOnlyTransitive(a: Trace, b: Trace, c: Trace, s: Service)
    requires Extends(a, b) && Extends(b, c)
    requires IssuedOnly(a, b, s) && IssuedOnly(b, c, s)
    ensures IssuedOnly(a, c, s)
  {
    forall i | |a.log| <= i < |c.log|
      ensures ServiceOf(c.log[i]) == s
    {
      if i < |b.log| {
        assert c.log[i] == b.log[i];
      }
    }
  }

  lemma SendStep(t: Trace, c: Call)
    ensures var s := Send(t, c);
      Extends(t, s.trace) && s.trace.log == t.log + [c] && s.trace.notices == t.notices
  {
  }

  lemma PrintStep(t: Trace, ns: seq<Notice>)
    ensures var r := Print(t, ns);
      Extends(t, r) && r.log == t.log && r.world == t.world && r.notices == t.notices + ns
  {
  }

  /** A call whose failure is only a warning: the call is logged, and a warning about it is
      printed exactly when it fails. */
  lemma AttemptedStep(t: Trace, c: Call)
    ensures var r := Attempted(t, c);
      var reply := Issue(t.world, c).reply;
      && Extends(t, r)
      && r.log == t.log + [c]
      && r.notices == t.notices + (if reply.Failed? then [Warning(c, reply.message)] else [])
  {
  }

  /** The calls a gated step issues. */
  function Gated(gate: bool, c: Call): seq<Call> {
    if gate then [c] else []
  }

  /** The new notices of `t'` over `t` are all warnings about calls in `calls`. */
  ghost predicate WarnsOnlyAbout(t: Trace, t': Trace, calls: seq<Call>) {
    forall i :: |t.notices| <= i < |t'.notices| ==> t'.notices[i].Warning? && t'.notices[i].call in calls
  }

  lemma OptionalStep(t: Trace, gate: bool, c: Call)
    ensures var r := Optional(t, gate, c);
      Extends(t, r) && r.log == t.log + Gated(gate, c) && WarnsOnlyAbout(t, r, Gated(gate, c))
  {
    if gate {
      AttemptedStep(t, c);
    }
  }

  lemma WarnsOnlyAboutTransitive(a: Trace, b: Trace, c: Trace, ab: seq<Call>, bc: seq<Call>)
    requires Extends(a, b) && Extends(b, c)
    requires WarnsOnlyAbout(a, b, ab) && WarnsOnlyAbout(b, c, bc)
    ensures WarnsOnlyAbout(a, c, ab + bc)
  {
    forall i | |a.notices| <= i < |c.notices|
      ensures c.notices[i].Warning? && c.notices[i].call in ab + bc
    {
      if i < |b.notices| {
        assert c.notices[i] == b.notices[i];
      }
    }
  }

  /** The calls `t'` has received since `t`. */
  function CallsSince(t: Trace, t': Trace): seq<Call> {
    if |t.log| <= |t'.log| then t'.log[|t.log|..] else []
  }

  lemma CallsSinceAppended(t: Trace, t': Trace, calls: seq<Call>)
    requires t'.log == t.log + calls
    ensures CallsSince(t, t') == calls
  {
  }

  lemma Associative(a: seq<Call>, b: seq<Call>, c: seq<Call>)
    ensures a + b + c == a + (b + c)
  {
  }

  /** A reconciler loop returns at the first item whose step fails: its result is the error-free
      run over the items before that one, followed by that item's failing step. */
  lemma {:induction false} EachStopsAtFirstError<T>(t: Trace, items: seq<T>, step: (Trace, T) -> Outcome)
    ensures var o := Each(t, items, step);
      o.err.Some? ==>
        exists k :: 0 <= k < |items| && Each(t, items[..k], step).err.None?
                    && o == step(Each(t, items[..k], step).trace, items[k])
    decreases |items|
  {
    var o := Each(t, items, step);
    if o.err.Some? {
      var first := step(t, items[0]);
      assert items[..0] == [];
      if first.err.None? {
        EachStopsAtFirstError(first.trace, items[1..], step);
        var k :| 0 <= k < |items[1..]| && Each(first.trace, items[1..][..k], step).err.None?
                 && o == step(Each(first.trace, items[1..][..k], step).trace, items[1..][k]);
        assert items[..k + 1][0] == items[0] && items[..k + 1][1..] == items[1..][..k];
        assert Each(t, items[..k + 1], step) == Each(first.trace, items[1..][..k], step);
      }
    }
  }

  /** A reconciler loop that returns no error has run every item's step without error. */
  lemma {:induction false} EachRunsEveryItem<T>(t: Trace, items: seq<T>, step: (Trace, T) -> Outcome)
    ensures var o := Each(t, items, step);
      o.err.None? ==> forall k :: 0 <= k < |items| ==> step(Each(t, items[..k], step).trace, items[k]).err.None?
    decreases |items|
  {
    var o := Each(t, items, step);
    if items != [] && o.err.None? {
      var first := step(t, items[0]);
      EachRunsEveryItem(first.trace, items[1..], step);
      forall k | 0 <= k < |items|
        ensures step(Each(t, items[..k], step).trace, items[k]).err.None?
      {
        if k == 0 {
          assert items[..0] == [];
        } else {
          assert items[..k][0] == items[0] && items[..k][1..] == items[1..][..k - 1];
          assert items[k] == items[1..][k - 1];
        }
      }
    }
  }

  /** What a step guarantees about its own calls: the trace only grows, the new calls all go to
      `s`, and a failing step ends with a call that `fatal` accepts. */
  ghost predicate StaysWithin(t: Trace, o: Outcome, s: Service, fatal: Call -> bool) {
    && Extends(t, o.trace)
    && IssuedOnly(t, o.trace, s)
    && (o.err.Some? ==> |o.trace.log| > |t.log| && fatal(o.trace.log[|o.trace.log| - 1]))
  }

  lemma {:induction false} EachStaysWithin<T>(t: Trace, items: seq<T>, step: (Trace, T) -> Outcome,
                                              s: Service, fatal: Call -> bool)
    requires forall t': Trace, x: T :: StaysWithin(t', step(t', x), s, fatal)
    ensures StaysWithin(t, Each(t, items, step), s, fatal)
    decreases |items|
  {
    if items != [] {
      var first := step(t, items[0]);
      assert StaysWithin(t, first, s, fatal);
      if first.err.None? {
        var rest := Each(first.trace, items[1..], step);
        EachStaysWithin(first.trace, items[1..], step, s, fatal);
        ExtendsTransitive(t, first.trace, rest.trace);
        IssuedOnlyTransitive(t, first.trace, rest.trace, s);
      }
    }
  }

  /** A property of the account that no call undoes. */
  ghost predicate Lasting<T(!new)>(holds: (World, T) -> bool) {
    forall w: World, w': World, x: T :: Grows(w, w') && holds(w, x) ==> holds(w', x)
  }

  /** If every error-free step leaves its item in place in the account, and nothing undoes that,
      an error-free loop leaves every item in place. */
  lemma {:induction false} EachEnsures<T(!new)>(t: Trace, items: seq<T>, step: (Trace, T) -> Outcome,
                                          holds: (World, T) -> bool)
    requires Lasting(holds)
    requires forall t': Trace, x: T :: Extends(t', step(t', x).trace)
    requires forall t': Trace, x: T :: step(t', x).err.None? ==> holds(step(t', x).trace.world, x)
    ensures var o := Each(t, items, step);
      Extends(t, o.trace) && (o.err.None? ==> forall i :: 0 <= i < |items| ==> holds(o.trace.world, items[i]))
    decreases |items|
  {
    var o := Each(t, items, step);
    if items != [] {
      var first := step(t, items[0]);
      if first.err.None? {
        EachEnsures(first.trace, items[1..], step, holds);
        ExtendsTransitive(t, first.trace, o.trace);
        if o.err.None? {
          forall i | 0 <= i < |items|
            ensures holds(o.trace.world, items[i])
          {
            if i > 0 {
              assert items[i] == items[1..][i - 1];
            }
          }
        }
      }
    }
  }

  lemma IssuedOnlyAppended(t: Trace, t': Trace, calls: seq<Call>, s: Service)
    requires t'.log == t.log + calls
    requires forall c :: c in calls ==> ServiceOf(c) == s
    ensures IssuedOnly(t, t', s)
  {
    forall i | |t.log| <= i < |t'.log|
      ensures ServiceOf(t'.log[i]) == s
    {
      assert t'.log[i] == calls[i - |t.log|];
    }
  }

  /** A step whose calls are `calls`, all to `s`, the last one `fatal` when the step fails. */
  lemma AppendedWithin(t: Trace, o: Outcome, calls: seq<Call>, s: Service, fatal: Call -> bool)
    requires Extends(t, o.trace) && o.trace.log == t.log + calls
    requires forall c :: c in calls ==> ServiceOf(c) == s
    requires o.err.Some? ==> calls != [] && fatal(calls[|calls| - 1])
    ensures StaysWithin(t, o, s, fatal)
  {
    IssuedOnlyAppended(t, o.trace, calls, s);
  }
}
