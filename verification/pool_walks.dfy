/** Stretches of a run in which one entry takes local steps and nothing else moves: the means to
    construct the runs that show a promise's exceptions. */
module PoolWalks {
  import opened PoolEntry
  import opened PoolHub

  // ------------------------------------------------------------------------------------
  // Walks: steps of one entry in a row, with nothing else moving
  // ------------------------------------------------------------------------------------

  predicate Walks(s: EntryStep) {
    Local(s) && !s.Enter? && !s.MarkDirty?
  }

  predicate IsWalk(env: Env, en: Entry, steps: seq<EntryStep>)
    decreases steps
  {
    steps == [] || (Enabled(en, steps[0]) && Walks(steps[0]) && IsWalk(env, DoLocal(env, en, steps[0]), steps[1..]))
  }

  function Walk(env: Env, en: Entry, steps: seq<EntryStep>): Entry
    requires IsWalk(env, en, steps)
    decreases steps
  {
    if steps == [] then en else Walk(env, DoLocal(env, en, steps[0]), steps[1..])
  }

  lemma WalkNothing(env: Env, en: Entry)
    ensures IsWalk(env, en, []) && Walk(env, en, []) == en
  {
  }

  lemma WalkCons(env: Env, en: Entry, s: EntryStep, en': Entry, rest: seq<EntryStep>)
    requires Enabled(en, s) && Walks(s) && DoLocal(env, en, s) == en' && IsWalk(env, en', rest)
    ensures IsWalk(env, en, [s] + rest)
    ensures Walk(env, en, [s] + rest) == Walk(env, en', rest)
  {
    hide Enabled, Walks, DoLocal;
    assert ([s] + rest)[1..] == rest;
  }

  function AllIn(e: EntryId, steps: seq<EntryStep>): seq<Step> {
    if steps == [] then [] else [In(e, steps[0])] + AllIn(e, steps[1..])
  }

  lemma LocalStepInHub(h: Hub, e: EntryId, s: EntryStep)
    requires e < |h.entries| && Enabled(h.entries[e], s) && Walks(s)
    ensures Can(h, In(e, s))
    ensures Next(h, In(e, s)) == h.(entries := h.entries[e := DoLocal(h.env, h.entries[e], s)])
  {
    hide Enabled, DoLocal;
  }

  lemma {:induction false} WalkInHub(h: Hub, e: EntryId, steps: seq<EntryStep>)
    requires e < |h.entries| && IsWalk(h.env, h.entries[e], steps)
    ensures IsRun(h, AllIn(e, steps))
    ensures After(h, AllIn(e, steps)) == h.(entries := h.entries[e := Walk(h.env, h.entries[e], steps)])
    decreases steps
  {
    hide Enabled, DoLocal, Can, Next, Walks;
    if steps != [] {
      LocalStepInHub(h, e, steps[0]);
      var h' := Next(h, In(e, steps[0]));
      WalkInHub(h', e, steps[1..]);
      RunCons(h, In(e, steps[0]), AllIn(e, steps[1..]));
    } else {
      assert h.entries[e := h.entries[e]] == h.entries;
    }
  }

  lemma RunCons(h: Hub, s: Step, rest: seq<Step>)
    requires Can(h, s) && IsRun(Next(h, s), rest)
    ensures IsRun(h, [s] + rest)
    ensures After(h, [s] + rest) == After(Next(h, s), rest)
  {
    hide Can, Next;
    assert ([s] + rest)[1..] == rest;
  }

  lemma WalkOne(env: Env, en: Entry, s: EntryStep)
    requires Enabled(en, s) && Walks(s)
    ensures IsWalk(env, en, [s]) && Walk(env, en, [s]) == DoLocal(env, en, s)
  {
    hide Enabled, DoLocal;
    WalkNothing(env, DoLocal(env, en, s));
    assert [s] + [] == [s];
    WalkCons(env, en, s, DoLocal(env, en, s), []);
  }

  lemma WalkTwo(env: Env, en: Entry, s: EntryStep, en': Entry, t: EntryStep)
    requires Enabled(en, s) && Walks(s) && DoLocal(env, en, s) == en'
    requires Enabled(en', t) && Walks(t)
    ensures IsWalk(env, en, [s] + [t]) && Walk(env, en, [s] + [t]) == DoLocal(env, en', t)
  {
    hide Enabled, DoLocal, IsWalk, Walk;
    WalkOne(env, en', t);
    WalkCons(env, en, s, en', [t]);
  }

  lemma {:induction false} WalkConcat(env: Env, en: Entry, a: seq<EntryStep>, b: seq<EntryStep>)
    requires IsWalk(env, en, a) && IsWalk(env, Walk(env, en, a), b)
    ensures IsWalk(env, en, a + b)
    ensures Walk(env, en, a + b) == Walk(env, Walk(env, en, a), b)
    decreases a
  {
    hide Enabled, DoLocal;
    if a == [] {
      assert a + b == b;
    } else {
      WalkConcat(env, DoLocal(env, en, a[0]), a[1..], b);
      assert (a + b)[1..] == a[1..] + b;
    }
  }

  /** `t` follows a walk. */
  lemma WalkSnoc(env: Env, en: Entry, a: seq<EntryStep>, t: EntryStep)
    requires IsWalk(env, en, a) && Enabled(Walk(env, en, a), t) && Walks(t)
    ensures IsWalk(env, en, a + [t])
    ensures Walk(env, en, a + [t]) == DoLocal(env, Walk(env, en, a), t)
  {
    hide Enabled, DoLocal, IsWalk, Walk;
    WalkOne(env, Walk(env, en, a), t);
    WalkConcat(env, en, a, [t]);
  }

  lemma {:induction false} RunConcat(h: Hub, a: seq<Step>, b: seq<Step>)
    requires IsRun(h, a) && IsRun(After(h, a), b)
    ensures IsRun(h, a + b)
    ensures After(h, a + b) == After(After(h, a), b)
    decreases a
  {
    hide Can, Next;
    if a == [] {
      assert a + b == b;
    } else {
      RunConcat(Next(h, a[0]), a[1..], b);
      assert (a + b)[1..] == a[1..] + b;
    }
  }
}
