/**
 Which storage dtype a tensor name selects: ordered rules over globs in which `*` matches
 any run of characters and everything else is literal.
 */
module Glob {
  import opened Bytes

  /** The recursive meaning of a pattern. */
  predicate Matches(p: string, n: string)
    decreases |p| + |n|
  {
    if p == [] then n == []
    else if p[0] == '*' then Matches(p[1..], n) || (n != [] && Matches(p, n[1..]))
    else n != [] && p[0] == n[0] && Matches(p[1..], n[1..])
  }

  predicate Literal(p: string) {
    forall i :: 0 <= i < |p| ==> p[i] != '*'
  }

  predicate AllStars(p: string) {
    forall i :: 0 <= i < |p| ==> p[i] == '*'
  }

  lemma {:induction false} MatchesEmptyName(p: string)
    ensures Matches(p, "") <==> AllStars(p)
  {
    if p != [] {
      MatchesEmptyName(p[1..]);
      assert AllStars(p) ==> AllStars(p[1..]);
    }
  }

  lemma {:induction false} LiteralPrefix(lit: string, q: string, n: string)
    requires Literal(lit)
    ensures Matches(lit + q, n) <==> |lit| <= |n| && n[..|lit|] == lit && Matches(q, n[|lit|..])
  {
    if lit == [] {
      assert lit + q == q && n[0..] == n;
    } else {
      assert (lit + q)[1..] == lit[1..] + q;
      if n != [] && lit[0] == n[0] {
        LiteralPrefix(lit[1..], q, n[1..]);
        assert |lit| <= |n| ==> n[1..][|lit| - 1..] == n[|lit|..] && n[..|lit|] == [n[0]] + n[1..][..|lit| - 1];
        assert lit == [lit[0]] + lit[1..];
      }
    }
  }

  /** A leading star can always swallow more of the name. */
  lemma {:induction false} StarAbsorbs(p: string, n: string, i: nat, j: nat)
    requires p != [] && p[0] == '*' && i <= j <= |n|
    requires Matches(p, n[j..])
    ensures Matches(p, n[i..])
    decreases j - i
  {
    if i < j {
      assert n[j - 1..][1..] == n[j..];
      StarAbsorbs(p, n, i, j - 1);
    }
  }

  lemma {:induction false} StarSplits(p: string, n: string)
    requires p != [] && p[0] == '*' && Matches(p, n)
    ensures exists k :: 0 <= k <= |n| && Matches(p[1..], n[k..])
    decreases |n|
  {
    if Matches(p[1..], n) {
      assert n[0..] == n;
    } else {
      StarSplits(p, n[1..]);
      var k :| 0 <= k <= |n[1..]| && Matches(p[1..], n[1..][k..]);
      assert n[1..][k..] == n[k + 1..];
    }
  }

  /** What the loop knows: the goal, as seen from the last star it passed. */
  ghost predicate Resumes(p: string, n: string, pi: nat, ni: nat, star: Option<nat>, resume: nat) {
    && pi <= |p| && ni <= |n| && resume <= ni
    && match star
       case None => Matches(p, n) == Matches(p[pi..], n[ni..])
       case Some(s) =>
         && s < pi && p[s] == '*'
         && pi - (s + 1) == ni - resume
         && Literal(p[s + 1..pi]) && p[s + 1..pi] == n[resume..ni]
         && Matches(p, n) == Matches(p[s..], n[resume..])
  }

  /** A match that starts the star's tail at `k` has the literal run there too. */
  lemma TailAt(p: string, n: string, pi: nat, ni: nat, s: nat, resume: nat, k: nat)
    requires Resumes(p, n, pi, ni, Some(s), resume) && resume <= k <= |n|
    requires Matches(p[s + 1..], n[k..])
    ensures ni - resume + k <= |n| && Matches(p[pi..], n[ni - resume + k..])
  {
    var lit := p[s + 1..pi];
    assert p[s + 1..] == lit + p[pi..];
    LiteralPrefix(lit, p[pi..], n[k..]);
    assert n[k..][|lit|..] == n[k + |lit|..];
  }

  lemma TailHere(p: string, n: string, pi: nat, ni: nat, s: nat, resume: nat)
    requires Resumes(p, n, pi, ni, Some(s), resume)
    ensures Matches(p[s + 1..], n[resume..]) == Matches(p[pi..], n[ni..])
    ensures Matches(p[pi..], n[ni..]) ==> Matches(p[s..], n[resume..])
  {
    var lit := p[s + 1..pi];
    assert p[s + 1..] == lit + p[pi..] && p[s..][1..] == p[s + 1..];
    LiteralPrefix(lit, p[pi..], n[resume..]);
    assert n[resume..][..|lit|] == n[resume..ni] && n[resume..][|lit|..] == n[ni..];
  }

  /** Passing a later star loses nothing: earlier stars never have to be reconsidered. */
  lemma LaterStar(p: string, n: string, pi: nat, ni: nat, star: Option<nat>, resume: nat)
    requires Resumes(p, n, pi, ni, star, resume)
    requires pi < |p| && p[pi] == '*' && ni < |n|
    ensures Resumes(p, n, pi + 1, ni, Some(pi), ni)
  {
    hide Matches;
    if star.Some? {
      var s := star.value;
      TailHere(p, n, pi, ni, s, resume);
      if Matches(p[s..], n[resume..]) {
        StarSplits(p[s..], n[resume..]);
        var k :| 0 <= k <= |n[resume..]| && Matches(p[s..][1..], n[resume..][k..]);
        assert n[resume..][k..] == n[resume + k..] && p[s..][1..] == p[s + 1..];
        TailAt(p, n, pi, ni, s, resume, resume + k);
        StarAbsorbs(p[pi..], n, ni, ni + k);
      }
    }
  }

  lemma LiteralStep(p: string, n: string, pi: nat, ni: nat, star: Option<nat>, resume: nat)
    requires Resumes(p, n, pi, ni, star, resume)
    requires pi < |p| && ni < |n| && p[pi] != '*' && p[pi] == n[ni]
    ensures Resumes(p, n, pi + 1, ni + 1, star, resume)
  {
    match star
    case None =>
      assert p[pi..][1..] == p[pi + 1..] && n[ni..][1..] == n[ni + 1..];
    case Some(s) =>
      assert p[s + 1..pi + 1] == p[s + 1..pi] + [p[pi]];
      assert n[resume..ni + 1] == n[resume..ni] + [n[ni]];
  }

  lemma Backtrack(p: string, n: string, pi: nat, ni: nat, s: nat, resume: nat)
    requires Resumes(p, n, pi, ni, Some(s), resume)
    requires ni < |n| && (pi == |p| || (p[pi] != '*' && p[pi] != n[ni]))
    ensures Resumes(p, n, s + 1, resume + 1, Some(s), resume + 1)
  {
    TailHere(p, n, pi, ni, s, resume);
    assert !Matches(p[pi..], n[ni..]);
    assert p[s..][1..] == p[s + 1..] && n[resume..][1..] == n[resume + 1..];
    assert Matches(p[s..], n[resume..]) == Matches(p[s..], n[resume + 1..]);
  }

  lemma Refuted(p: string, n: string, pi: nat, ni: nat, resume: nat)
    requires Resumes(p, n, pi, ni, None, resume)
    requires ni < |n| && (pi == |p| || (p[pi] != '*' && p[pi] != n[ni]))
    ensures !Matches(p, n)
  {
  }

  lemma Finish(p: string, n: string, pi: nat, star: Option<nat>, resume: nat)
    requires Resumes(p, n, pi, |n|, star, resume)
    ensures Matches(p, n) <==> AllStars(p[pi..])
  {
    assert n[|n|..] == [];
    MatchesEmptyName(p[pi..]);
    if star.Some? {
      var s := star.value;
      TailHere(p, n, pi, |n|, s, resume);
      if Matches(p[s..], n[resume..]) {
        StarSplits(p[s..], n[resume..]);
        var k :| 0 <= k <= |n[resume..]| && Matches(p[s..][1..], n[resume..][k..]);
        assert n[resume..][k..] == n[resume + k..] && p[s..][1..] == p[s + 1..];
        TailAt(p, n, pi, |n|, s, resume, resume + k);
      }
    }
  }

  /** `width` turns for each of `k` positions the last star has moved on by. */
  ghost function Laps(k: nat, width: nat): nat {
    if k == 0 then 0 else width + Laps(k - 1, width)
  }

  lemma {:induction false} LapsGrow(a: nat, b: nat, width: nat)
    requires a <= b
    ensures Laps(a, width) <= Laps(b, width)
    decreases b
  {
    if b > 0 {
      LapsGrow(if a < b then a else b - 1, b - 1, width);
    }
  }

  lemma {:induction false} LapsProduct(k: nat, width: nat)
    ensures Laps(k, width) == k * width
  {
    if k > 0 {
      LapsProduct(k - 1, width);
      assert k * width == (k - 1) * width + width;
    }
  }

  /**
   The iterative matcher: it only ever goes back to the last star, and takes at most
   `|p| + |n| * (|p| + 1)` turns of the loop.
   */
  method GlobMatch(p: string, n: string) returns (matched: bool, ghost turns: nat)
    ensures matched == Matches(p, n)
    ensures turns <= |p| + |n| * (|p| + 1)
  {
    LapsProduct(|n|, |p| + 1);
    matched, turns := Scan(p, n);
  }

  /** Where the loop stands after `turns` turns. */
  ghost predicate Stands(p: string, n: string, pi: nat, ni: nat, star: Option<nat>, resume: nat, turns: nat) {
    Resumes(p, n, pi, ni, star, resume) && turns <= Laps(resume, |p| + 1) + pi
  }

  lemma StandsAtStart(p: string, n: string)
    ensures Stands(p, n, 0, 0, None, 0, 0)
  {
    assert p[0..] == p && n[0..] == n;
  }

  lemma StarTurn(p: string, n: string, pi: nat, ni: nat, star: Option<nat>, resume: nat, turns: nat)
    requires Stands(p, n, pi, ni, star, resume, turns) && pi < |p| && p[pi] == '*' && ni < |n|
    ensures resume <= ni && Stands(p, n, pi + 1, ni, Some(pi), ni, turns + 1)
  {
    LaterStar(p, n, pi, ni, star, resume);
    LapsGrow(resume, ni, |p| + 1);
  }

  lemma LiteralTurn(p: string, n: string, pi: nat, ni: nat, star: Option<nat>, resume: nat, turns: nat)
    requires Stands(p, n, pi, ni, star, resume, turns) && pi < |p| && p[pi] != '*' && ni < |n| && p[pi] == n[ni]
    ensures Stands(p, n, pi + 1, ni + 1, star, resume, turns + 1)
  {
    LiteralStep(p, n, pi, ni, star, resume);
  }

  lemma BacktrackTurn(p: string, n: string, pi: nat, ni: nat, s: nat, resume: nat, turns: nat)
    requires Stands(p, n, pi, ni, Some(s), resume, turns) && ni < |n| && (pi == |p| || (p[pi] != '*' && p[pi] != n[ni]))
    ensures s < |p| && resume < |n| && Stands(p, n, s + 1, resume + 1, Some(s), resume + 1, turns + 1)
  {
    Backtrack(p, n, pi, ni, s, resume);
  }

  lemma RefutedTurn(p: string, n: string, pi: nat, ni: nat, resume: nat, turns: nat)
    requires Stands(p, n, pi, ni, None, resume, turns) && ni < |n| && (pi == |p| || (p[pi] != '*' && p[pi] != n[ni]))
    ensures !Matches(p, n) && turns + 1 <= |p| + Laps(|n|, |p| + 1)
  {
    Refuted(p, n, pi, ni, resume);
    LapsGrow(resume + 1, |n|, |p| + 1);
  }

  lemma LastTurn(p: string, n: string, pi: nat, star: Option<nat>, resume: nat, turns: nat)
    requires Stands(p, n, pi, |n|, star, resume, turns)
    ensures pi <= |p| && (Matches(p, n) <==> AllStars(p[pi..])) && turns <= |p| + Laps(|n|, |p| + 1)
  {
    Finish(p, n, pi, star, resume);
    LapsGrow(resume, |n|, |p| + 1);
  }

  method Scan(p: string, n: string) returns (matched: bool, ghost turns: nat)
    ensures matched == Matches(p, n)
    ensures turns <= |p| + Laps(|n|, |p| + 1)
  {
    hide Stands, Resumes, Matches, Laps;
    var pi: nat, ni: nat, resume: nat := 0, 0, 0;
    var star: Option<nat> := None;
    turns := 0;
    StandsAtStart(p, n);
    while ni < |n|
      invariant pi <= |p| && ni <= |n|
      invariant Stands(p, n, pi, ni, star, resume, turns)
      decreases |n| - resume, |p| - pi
    {
      if pi < |p| && p[pi] == '*' {
        StarTurn(p, n, pi, ni, star, resume, turns);
        star, pi, resume := Some(pi), pi + 1, ni;
      } else if pi < |p| && p[pi] == n[ni] {
        LiteralTurn(p, n, pi, ni, star, resume, turns);
        pi, ni := pi + 1, ni + 1;
      } else if star.Some? {
        BacktrackTurn(p, n, pi, ni, star.value, resume, turns);
        pi, resume := star.value + 1, resume + 1;
        ni := resume;
      } else {
        RefutedTurn(p, n, pi, ni, resume, turns);
        turns := turns + 1;
        return false, turns;
      }
      turns := turns + 1;
    }
    LastTurn(p, n, pi, star, resume, turns);
    matched := AllStars(p[pi..]);
  }

  datatype Target = Keep | Cast(dtype: string)
  type Policy = seq<(string, Target)>

  /** The first rule whose pattern matches decides; a name no rule matches is kept as it is. */
  function Chosen(rules: Policy, name: string): (t: Target)
    ensures (forall i :: 0 <= i < |rules| ==> !Matches(rules[i].0, name)) ==> t == Keep
    ensures forall i ::
              (0 <= i < |rules| && Matches(rules[i].0, name)
               && (forall j :: 0 <= j < i ==> !Matches(rules[j].0, name)))
              ==> t == rules[i].1
  {
    if rules == [] then Keep
    else if Matches(rules[0].0, name) then rules[0].1
    else
      assert forall i :: 0 < i < |rules| ==> rules[i] == rules[1..][i - 1];
      Chosen(rules[1..], name)
  }

  method ForTensor(rules: Policy, name: string) returns (t: Target)
    ensures t == Chosen(rules, name)
  {
    var i := 0;
    while i < |rules|
      invariant 0 <= i <= |rules|
      invariant forall j :: 0 <= j < i ==> !Matches(rules[j].0, name)
    {
      var matched, _ := GlobMatch(rules[i].0, name);
      if matched {
        return rules[i].1;
      }
      i := i + 1;
    }
    return Keep;
  }
}
