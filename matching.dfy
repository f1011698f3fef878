/** The matching engine of backend/src/routes/ai.js: skill-overlap scores,
    the `> 0.2` filter, the stable sort by descending score, the top five,
    the role decision table and the introduction's compatibility score.
    Scores are kept exact as `num / den`. */
module Matching {
  import opened Seqs
  import opened Text
  import opened Profiles

  type Positive = n: int | n >= 1 witness 1

  /** The score `num / den`. */
  datatype Ratio = Ratio(num: nat, den: Positive)

  /** `score > 0.2`, exactly. */
  predicate AboveThreshold(r: Ratio)
  {
    5 * r.num > r.den
  }

  /** `a > b`, by cross-multiplication. */
  predicate Higher(a: Ratio, b: Ratio)
  {
    a.num * b.den > b.num * a.den
  }

  /** `a == b` as numbers. */
  predicate SameScore(a: Ratio, b: Ratio)
  {
    a.num * b.den == b.num * a.den
  }

  /** At most 1. */
  predicate Proper(r: Ratio)
  {
    r.num <= r.den
  }

  /** `mine.filter(s => theirs.includes(s))`: the common skills, in the
      requester's order. */
  function Common(mine: seq<string>, theirs: seq<string>): (c: seq<string>)
    ensures |c| <= |mine|
    ensures forall s :: s in c <==> s in mine && s in theirs
    ensures NoDups(mine) ==> NoDups(c)
  {
    if |mine| == 0 then []
    else
      var rest := Common(mine[1..], theirs);
      assert NoDups(mine) ==> NoDups(mine[1..]) && mine[0] !in mine[1..];
      (if mine[0] in theirs then [mine[0]] else []) + rest
  }

  /** The filter keeps the requester's order: the common skills are the
      requester's list with the others left out. */
  lemma {:induction false} CommonInOrder(mine: seq<string>, theirs: seq<string>)
    ensures IsSubseq(Common(mine, theirs), mine)
  {
    if |mine| > 0 {
      var rest := Common(mine[1..], theirs);
      CommonInOrder(mine[1..], theirs);
      assert [mine[0]] + mine[1..] == mine;
      if mine[0] in theirs {
        SubseqConsBoth(rest, mine[1..], mine[0]);
      } else {
        assert [] + rest == rest;
        SubseqConsRight(rest, mine[1..], mine[0]);
      }
    }
  }

  /** `|common| / max(|mine|, |theirs|, 1)`: a proper fraction. */
  function Score(mine: Profile, theirs: Profile): (r: Ratio)
    ensures Proper(r)
    ensures r.den >= |mine.skills| && r.den >= |theirs.skills|
  {
    Ratio(|Common(mine.skills, theirs.skills)|, Max(Max(|mine.skills|, |theirs.skills|), 1))
  }

  /** Two lists without repeats have as many common elements either way. */
  lemma CommonCountSymmetric(a: seq<string>, b: seq<string>)
    requires NoDups(a) && NoDups(b)
    ensures |Common(a, b)| == |Common(b, a)|
  {
    var ab, ba := Common(a, b), Common(b, a);
    NoDupsCard(ab);
    NoDupsCard(ba);
    assert (set x | x in ab) == (set x | x in ba);
  }

  /** The overlap score does not depend on which side asks. */
  lemma ScoreSymmetric(p: Profile, q: Profile)
    requires NoDups(p.skills) && NoDups(q.skills)
    ensures Score(p, q) == Score(q, p)
  {
    CommonCountSymmetric(p.skills, q.skills);
  }

  datatype Role = Mentor | FrontendLead | BackendLead | DesignLead | Collaborator

  /** `suggestRole`: a decision table read top to bottom, first match wins. */
  function SuggestRole(mine: Profile, theirs: Profile): (r: Role)
    ensures r == Mentor <==> mine.expertise == Expert && theirs.expertise == Beginner
    ensures r == FrontendLead <==>
      !(mine.expertise == Expert && theirs.expertise == Beginner)
      && "frontend" in mine.skills && "backend" in theirs.skills
    ensures r == BackendLead <==>
      !(mine.expertise == Expert && theirs.expertise == Beginner)
      && !("frontend" in mine.skills && "backend" in theirs.skills)
      && "backend" in mine.skills && "frontend" in theirs.skills
    ensures r == DesignLead <==>
      !(mine.expertise == Expert && theirs.expertise == Beginner)
      && !("frontend" in mine.skills && "backend" in theirs.skills)
      && !("backend" in mine.skills && "frontend" in theirs.skills)
      && "design" in mine.skills
    ensures r == Collaborator <==>
      !(mine.expertise == Expert && theirs.expertise == Beginner)
      && !("frontend" in mine.skills && "backend" in theirs.skills)
      && !("backend" in mine.skills && "frontend" in theirs.skills)
      && "design" !in mine.skills
  {
    if mine.expertise == Expert && theirs.expertise == Beginner then Mentor
    else if "frontend" in mine.skills && "backend" in theirs.skills then FrontendLead
    else if "backend" in mine.skills && "frontend" in theirs.skills then BackendLead
    else if "design" in mine.skills then DesignLead
    else Collaborator
  }

  /** Mentoring goes one way only. */
  lemma MentorOneWay(p: Profile, q: Profile)
    ensures SuggestRole(p, q) == Mentor ==> SuggestRole(q, p) != Mentor
  {
  }

  /** A pure frontend profile and a pure backend profile, with no mentoring
      either way, lead from their own side: frontend-lead one way and
      backend-lead the other. */
  lemma LeadRolesPair(p: Profile, q: Profile)
    requires "frontend" in p.skills && "backend" !in p.skills
    requires "backend" in q.skills && "frontend" !in q.skills
    requires !(p.expertise == Expert && q.expertise == Beginner)
    requires !(q.expertise == Expert && p.expertise == Beginner)
    ensures SuggestRole(p, q) == FrontendLead && SuggestRole(q, p) == BackendLead
  {
  }

  /** One entry of the match list. */
  datatype Match = Match(wallet: Wallet, score: Ratio, commonSkills: seq<string>, role: Role)

  /** The profile `analyzeUserFromMessages` computes for a wallet. */
  function ProfileOf(logs: map<Wallet, seq<ChatEntry>>, w: Wallet): Profile
  {
    Analyze(LookupOrEmpty(logs, w))
  }

  function Evaluate(mine: Profile, w: Wallet, theirs: Profile): Match
  {
    Match(w, Score(mine, theirs), Common(mine.skills, theirs.skills), SuggestRole(mine, theirs))
  }

  /** What every returned match satisfies: another visited wallet, with a
      score in [0, 1] above 0.2. */
  predicate Eligible(self: Wallet, ws: seq<Wallet>, m: Match)
  {
    m.wallet != self && m.wallet in ws && AboveThreshold(m.score) && Proper(m.score)
  }

  /** The loop of `findMatches` before sorting: every wallet of `ws` other
      than `self`, in order, whose score is above 0.2. */
  function Candidates(self: Wallet, mine: Profile, ws: seq<Wallet>, logs: map<Wallet, seq<ChatEntry>>): (r: seq<Match>)
    ensures |r| <= |ws|
    ensures forall m :: m in r ==> Eligible(self, ws, m)
  {
    if |ws| == 0 then []
    else
      var prev := Candidates(self, mine, ws[..|ws| - 1], logs);
      var w := ws[|ws| - 1];
      var m := Evaluate(mine, w, ProfileOf(logs, w));
      if w != self && AboveThreshold(m.score) then prev + [m] else prev
  }

  /** Each candidate is the evaluation of its wallet's profile against the
      requester's. */
  lemma {:induction false} CandidatesSound(self: Wallet, mine: Profile, ws: seq<Wallet>, logs: map<Wallet, seq<ChatEntry>>, m: Match)
    requires m in Candidates(self, mine, ws, logs)
    ensures m == Evaluate(mine, m.wallet, ProfileOf(logs, m.wallet))
  {
    var prev := Candidates(self, mine, ws[..|ws| - 1], logs);
    if m in prev {
      CandidatesSound(self, mine, ws[..|ws| - 1], logs, m);
    }
  }

  /** Every wallet other than `self` that scores above 0.2 is a candidate. */
  lemma {:induction false} CandidatesComplete(self: Wallet, mine: Profile, ws: seq<Wallet>, logs: map<Wallet, seq<ChatEntry>>, w: Wallet)
    requires w in ws && w != self && AboveThreshold(Score(mine, ProfileOf(logs, w)))
    ensures Evaluate(mine, w, ProfileOf(logs, w)) in Candidates(self, mine, ws, logs)
  {
    LastOrInit(ws, w);
    if w != ws[|ws| - 1] {
      CandidatesComplete(self, mine, ws[..|ws| - 1], logs, w);
      PrefixOfCandidates(self, mine, ws, logs);
    }
  }

  /** Visiting one more wallet only appends to the candidates. */
  lemma PrefixOfCandidates(self: Wallet, mine: Profile, ws: seq<Wallet>, logs: map<Wallet, seq<ChatEntry>>)
    requires |ws| > 0
    ensures forall m :: m in Candidates(self, mine, ws[..|ws| - 1], logs) ==> m in Candidates(self, mine, ws, logs)
  {
  }

  /** One more wallet of the walk: the candidates of a one-longer prefix
      are those of the prefix, plus that wallet's evaluation when it
      qualifies. */
  lemma CandidatesStep(self: Wallet, mine: Profile, ws: seq<Wallet>, logs: map<Wallet, seq<ChatEntry>>, i: nat)
    requires i < |ws|
    ensures var m := Evaluate(mine, ws[i], ProfileOf(logs, ws[i]));
      Candidates(self, mine, ws[..i + 1], logs)
      == if ws[i] != self && AboveThreshold(m.score) then Candidates(self, mine, ws[..i], logs) + [m]
         else Candidates(self, mine, ws[..i], logs)
  {
    assert ws[..i + 1][..i] == ws[..i];
  }

  /** A requester without a log is scored with the default profile, so any
      logged wallet with the skill solana and at most four skills is one of
      its candidates. */
  lemma ColdStartCandidate(self: Wallet, ws: seq<Wallet>, logs: map<Wallet, seq<ChatEntry>>, w: Wallet)
    requires self !in logs && w in ws && w != self
    requires "solana" in ProfileOf(logs, w).skills && |ProfileOf(logs, w).skills| <= 4
    ensures exists m :: m in Candidates(self, ProfileOf(logs, self), ws, logs) && m.wallet == w
  {
    var mine, theirs := ProfileOf(logs, self), ProfileOf(logs, w);
    assert mine == DefaultProfile();
    assert "solana" in Common(mine.skills, theirs.skills);
    CandidatesComplete(self, mine, ws, logs, w);
  }

  // ---------------------------------------------------------------------
  // Order on scores

  lemma MulLe(x: int, y: int, k: nat)
    requires x <= y
    ensures x * k <= y * k
  {
  }

  lemma MulLt(x: int, y: int, k: int)
    requires x < y && k > 0
    ensures x * k < y * k
  {
  }

  lemma CancelLe(x: int, y: int, k: int)
    requires k > 0 && x * k <= y * k
    ensures x <= y
  {
    if x > y {
      MulLt(y, x, k);
    }
  }

  /** `a <= b <= c` implies `a <= c`. */
  lemma AtMostTrans(a: Ratio, b: Ratio, c: Ratio)
    requires !Higher(a, b) && !Higher(b, c)
    ensures !Higher(a, c)
  {
    calc {
      (a.num * c.den) * b.den;
    ==
      (a.num * b.den) * c.den;
    <= { MulLe(a.num * b.den, b.num * a.den, c.den); }
      (b.num * a.den) * c.den;
    ==
      (b.num * c.den) * a.den;
    <= { MulLe(b.num * c.den, c.num * b.den, a.den); }
      (c.num * b.den) * a.den;
    ==
      (c.num * a.den) * b.den;
    }
    CancelLe(a.num * c.den, c.num * a.den, b.den);
  }

  /** Always true: a trigger only. Mentioning `Chain(a, b, c)` names the
      chain whose transitivity a proof needs, so that the transitivity of
      a comparator is instantiated only where asked for. */
  ghost predicate Chain(a: Ratio, b: Ratio, c: Ratio)
  {
    true
  }

  /** A comparator a sort can rely on: "ahead of" is asymmetric and "not
      ahead of" (`!gt(a, b)`) is transitive. */
  ghost predicate Ordering(gt: (Ratio, Ratio) -> bool)
  {
    && (forall a, b :: gt(a, b) ==> !gt(b, a))
    && (forall a, b, c {:trigger Chain(a, b, c)} :: Chain(a, b, c) && !gt(a, b) && !gt(b, c) ==> !gt(a, c))
  }

  /** Comparing scores by cross-multiplication is such a comparator. */
  lemma HigherOrdering()
    ensures Ordering(Higher)
  {
    forall a, b, c | Chain(a, b, c) && !Higher(a, b) && !Higher(b, c)
      ensures !Higher(a, c)
    {
      AtMostTrans(a, b, c);
    }
  }

  // ---------------------------------------------------------------------
  // Stable sort by a comparator: `matches.sort((a, b) => b.score - a.score)`

  /** No entry is ahead of an earlier one. */
  predicate SortedBy(s: seq<Match>, gt: (Ratio, Ratio) -> bool)
  {
    forall i, j :: 0 <= i < j < |s| ==> !gt(s[j].score, s[i].score)
  }

  /** Puts `m` just before the first entry it is ahead of, so it lands after
      every entry it ties with. */
  function Insert(s: seq<Match>, m: Match, gt: (Ratio, Ratio) -> bool): (r: seq<Match>)
    ensures |r| == |s| + 1
  {
    if |s| == 0 then [m]
    else if gt(m.score, s[0].score) then [m] + s
    else [s[0]] + Insert(s[1..], m, gt)
  }

  /** Insertion adds exactly the new entry. */
  lemma {:induction false} InsertPerm(s: seq<Match>, m: Match, gt: (Ratio, Ratio) -> bool)
    ensures multiset(Insert(s, m, gt)) == multiset(s) + multiset{m}
  {
    if |s| > 0 && !gt(m.score, s[0].score) {
      InsertPerm(s[1..], m, gt);
      assert s == [s[0]] + s[1..];
    }
  }

  /** Insertion sort taking the entries front to back; the later of two tied
      entries is inserted after the earlier, so the sort is stable. */
  function SortBy(s: seq<Match>, gt: (Ratio, Ratio) -> bool): (r: seq<Match>)
    ensures |r| == |s|
  {
    if |s| == 0 then []
    else Insert(SortBy(s[..|s| - 1], gt), s[|s| - 1], gt)
  }

  /** The sort is a permutation of its input. */
  lemma {:induction false} SortPerm(s: seq<Match>, gt: (Ratio, Ratio) -> bool)
    ensures multiset(SortBy(s, gt)) == multiset(s)
  {
    if |s| > 0 {
      var init, last := s[..|s| - 1], s[|s| - 1];
      assert s == init + [last];
      assert SortBy(s, gt) == Insert(SortBy(init, gt), last, gt);
      SortPerm(init, gt);
      InsertPerm(SortBy(init, gt), last, gt);
    }
  }

  lemma {:induction false} InsertSorted(s: seq<Match>, m: Match, gt: (Ratio, Ratio) -> bool)
    requires Ordering(gt) && SortedBy(s, gt)
    ensures SortedBy(Insert(s, m, gt), gt)
  {
    if |s| == 0 {
    } else if gt(m.score, s[0].score) {
      forall j | 0 <= j < |s| ensures !gt(s[j].score, m.score) {
        if j > 0 {
          assert !gt(s[j].score, s[0].score);
          assert Chain(s[j].score, s[0].score, m.score);
        }
      }
    } else {
      var t := Insert(s[1..], m, gt);
      InsertSorted(s[1..], m, gt);
      InsertPerm(s[1..], m, gt);
      forall j | 0 <= j < |t| ensures !gt(t[j].score, s[0].score) {
        assert t[j] in multiset(t);
        if t[j] != m {
          assert t[j] in multiset(s[1..]);
          var k :| 0 <= k < |s[1..]| && s[1..][k] == t[j];
          assert s[k + 1] == t[j];
        }
      }
    }
  }

  lemma {:induction false} SortSorted(s: seq<Match>, gt: (Ratio, Ratio) -> bool)
    requires Ordering(gt)
    ensures SortedBy(SortBy(s, gt), gt)
  {
    if |s| > 0 {
      SortSorted(s[..|s| - 1], gt);
      InsertSorted(SortBy(s[..|s| - 1], gt), s[|s| - 1], gt);
    }
  }

  /** The entries of `s` tied with score `x` (neither ahead of the other), in
      their order in `s`. */
  function Tied(s: seq<Match>, x: Ratio, gt: (Ratio, Ratio) -> bool): seq<Match>
  {
    if |s| == 0 then []
    else (if !gt(s[0].score, x) && !gt(x, s[0].score) then [s[0]] else []) + Tied(s[1..], x, gt)
  }

  /** The tied entries are entries of the list tied with `x`. */
  lemma {:induction false} TiedMembers(s: seq<Match>, x: Ratio, gt: (Ratio, Ratio) -> bool)
    ensures forall m :: m in Tied(s, x, gt) ==> m in s && !gt(m.score, x) && !gt(x, m.score)
  {
    if |s| > 0 {
      TiedMembers(s[1..], x, gt);
    }
  }

  lemma {:induction false} TiedAppend(a: seq<Match>, b: seq<Match>, x: Ratio, gt: (Ratio, Ratio) -> bool)
    ensures Tied(a + b, x, gt) == Tied(a, x, gt) + Tied(b, x, gt)
  {
    if |a| > 0 {
      assert (a + b)[1..] == a[1..] + b;
      TiedAppend(a[1..], b, x, gt);
    } else {
      assert a + b == b;
    }
  }

  /** No entry of `s` is tied with `x`, so none is kept. */
  lemma {:induction false} TiedNone(s: seq<Match>, x: Ratio, gt: (Ratio, Ratio) -> bool)
    requires forall k :: 0 <= k < |s| ==> gt(s[k].score, x) || gt(x, s[k].score)
    ensures Tied(s, x, gt) == []
  {
    if |s| > 0 {
      TiedNone(s[1..], x, gt);
    }
  }

  lemma TiedSingle(m: Match, x: Ratio, gt: (Ratio, Ratio) -> bool)
    ensures Tied([m], x, gt) == if !gt(m.score, x) && !gt(x, m.score) then [m] else []
  {
    assert [m][1..] == [];
  }

  /** An entry ahead of the head of a sorted list is tied with no entry of
      the list it is tied with. */
  lemma AheadOfAll(s: seq<Match>, m: Match, x: Ratio, gt: (Ratio, Ratio) -> bool)
    requires Ordering(gt) && SortedBy(s, gt) && |s| > 0 && gt(m.score, s[0].score)
    requires !gt(m.score, x) && !gt(x, m.score)
    ensures Tied(s, x, gt) == []
  {
    forall k | 0 <= k < |s| ensures gt(s[k].score, x) || gt(x, s[k].score) {
      if k > 0 {
        assert !gt(s[k].score, s[0].score);
        assert Chain(x, s[k].score, s[0].score);
      }
      assert Chain(m.score, x, s[0].score);
    }
    TiedNone(s, x, gt);
  }

  /** Inserting into a sorted list adds the new entry to the tied entries
      at their end. */
  lemma {:induction false} InsertTied(s: seq<Match>, m: Match, x: Ratio, gt: (Ratio, Ratio) -> bool)
    requires Ordering(gt) && SortedBy(s, gt)
    ensures Tied(Insert(s, m, gt), x, gt) == Tied(s, x, gt) + Tied([m], x, gt)
    decreases |s|, 1
  {
    if |s| == 0 {
      assert Insert(s, m, gt) == [m];
    } else if gt(m.score, s[0].score) {
      assert Insert(s, m, gt) == [m] + s;
      TiedAppend([m], s, x, gt);
      TiedSingle(m, x, gt);
      if !gt(m.score, x) && !gt(x, m.score) {
        AheadOfAll(s, m, x, gt);
      }
    } else {
      InsertTiedPast(s, m, x, gt);
    }
  }

  lemma {:induction false} InsertTiedPast(s: seq<Match>, m: Match, x: Ratio, gt: (Ratio, Ratio) -> bool)
    requires Ordering(gt) && SortedBy(s, gt) && |s| > 0 && !gt(m.score, s[0].score)
    ensures Tied(Insert(s, m, gt), x, gt) == Tied(s, x, gt) + Tied([m], x, gt)
    decreases |s|, 0
  {
    var a, b, c := Tied([s[0]], x, gt), Tied(s[1..], x, gt), Tied([m], x, gt);
    assert Tied(Insert(s[1..], m, gt), x, gt) == b + c by {
      assert SortedBy(s[1..], gt);
      InsertTied(s[1..], m, x, gt);
    }
    assert Tied(Insert(s, m, gt), x, gt) == a + Tied(Insert(s[1..], m, gt), x, gt) by {
      assert Insert(s, m, gt) == [s[0]] + Insert(s[1..], m, gt);
      TiedAppend([s[0]], Insert(s[1..], m, gt), x, gt);
    }
    assert Tied(s, x, gt) == a + b by {
      assert s == [s[0]] + s[1..];
      TiedAppend([s[0]], s[1..], x, gt);
    }
    assert a + (b + c) == (a + b) + c;
  }

  /** The sort is stable: the entries tied with any score keep their order. */
  lemma {:induction false} SortStable(s: seq<Match>, x: Ratio, gt: (Ratio, Ratio) -> bool)
    requires Ordering(gt)
    ensures Tied(SortBy(s, gt), x, gt) == Tied(s, x, gt)
  {
    if |s| > 0 {
      var init, last := s[..|s| - 1], s[|s| - 1];
      SortStable(init, x, gt);
      SortSorted(init, gt);
      InsertTied(SortBy(init, gt), last, x, gt);
      assert s == init + [last];
      assert SortBy(s, gt) == Insert(SortBy(init, gt), last, gt);
      TiedAppend(init, [last], x, gt);
    }
  }

  // ---------------------------------------------------------------------
  // findMatches

  /** Scores never increase along the list. */
  predicate SortedDesc(s: seq<Match>)
  {
    forall i, j :: 0 <= i < j < |s| ==> !Higher(s[j].score, s[i].score)
  }

  /** The first `n` of the list sorted by descending score:
      `list.sort((a, b) => b.score - a.score).slice(0, n)`. */
  function Top(c: seq<Match>, n: nat): (r: seq<Match>)
    ensures |r| == Min(n, |c|)
  {
    Take(SortBy(c, Higher), n)
  }

  /** The top entries are in descending order and come from the list. */
  lemma TopSorted(c: seq<Match>, n: nat)
    ensures SortedDesc(Top(c, n))
    ensures forall m :: m in Top(c, n) ==> m in c
  {
    HigherOrdering();
    SortSorted(c, Higher);
    var sorted := SortBy(c, Higher);
    SortPerm(c, Higher);
    forall m | m in sorted ensures m in c {
      assert m in multiset(sorted);
    }
  }

  /** An entry left out of the top `n` scores no higher than any entry that
      made it, and the top is full. */
  lemma TopComplete(c: seq<Match>, n: nat, m: Match)
    requires m in c
    ensures m in Top(c, n) || (|Top(c, n)| == n && forall i :: 0 <= i < n ==> !Higher(m.score, Top(c, n)[i].score))
  {
    var sorted := SortBy(c, Higher);
    HigherOrdering();
    SortSorted(c, Higher);
    SortPerm(c, Higher);
    assert m in multiset(sorted) by { assert m in multiset(c); }
    var k :| 0 <= k < |sorted| && sorted[k] == m;
    var r := Top(c, n);
    assert r == sorted[..|r|];
    if k < |r| {
      assert r[k] == m;
    }
  }

  /** The top entries tied with a score are the first of the entries tied
      with it, in list order. */
  lemma TopKeepsTieOrder(c: seq<Match>, n: nat, x: Ratio)
    ensures var t := Tied(Top(c, n), x, Higher);
      |t| <= |Tied(c, x, Higher)| && t == Tied(c, x, Higher)[..|t|]
  {
    var sorted := SortBy(c, Higher);
    assert Tied(sorted, x, Higher) == Tied(c, x, Higher) by {
      HigherOrdering();
      SortStable(c, x, Higher);
    }
    var r := Top(c, n);
    var rest := sorted[|r|..];
    assert sorted == r + rest;
    TiedAppend(r, rest, x, Higher);
    var t := Tied(r, x, Higher);
    assert Tied(c, x, Higher) == t + Tied(rest, x, Higher);
    assert Tied(c, x, Higher)[..|t|] == t;
  }

  /** The first of the top entries scores at least as high as every entry
      of the list. */
  lemma TopFirstIsBest(c: seq<Match>, n: nat)
    requires n > 0 && |c| > 0
    ensures Top(c, n)[0] in c
    ensures forall m :: m in c ==> !Higher(m.score, Top(c, n)[0].score)
  {
    var r := Top(c, n);
    TopSorted(c, n);
    forall m | m in c ensures !Higher(m.score, r[0].score) {
      TopComplete(c, n, m);
      if m in r {
        var k :| 0 <= k < |r| && r[k] == m;
        if k > 0 {
          assert !Higher(r[k].score, r[0].score);
        }
      }
    }
  }

  /** `findMatches(self)`: the candidates, sorted by descending score, cut
      to five. */
  function TopMatches(self: Wallet, mine: Profile, ws: seq<Wallet>, logs: map<Wallet, seq<ChatEntry>>): (r: seq<Match>)
    ensures |r| == Min(5, |Candidates(self, mine, ws, logs)|)
    ensures SortedDesc(r)
    ensures forall m :: m in r ==> Eligible(self, ws, m)
  {
    var c := Candidates(self, mine, ws, logs);
    TopSorted(c, 5);
    Top(c, 5)
  }

  /** A candidate left out of the five matches scores no higher than any
      match that made it. */
  lemma TopMatchesComplete(self: Wallet, mine: Profile, ws: seq<Wallet>, logs: map<Wallet, seq<ChatEntry>>, m: Match)
    requires m in Candidates(self, mine, ws, logs)
    ensures var r := TopMatches(self, mine, ws, logs);
      m in r || (|r| == 5 && forall i :: 0 <= i < |r| ==> !Higher(m.score, r[i].score))
  {
    TopComplete(Candidates(self, mine, ws, logs), 5, m);
  }

  /** Equal scores keep the order in which the wallets were visited: the
      returned matches tied with a score have that score and are the first
      of the candidates tied with it, in candidate order. */
  lemma TopMatchesKeepTieOrder(self: Wallet, mine: Profile, ws: seq<Wallet>, logs: map<Wallet, seq<ChatEntry>>, x: Ratio)
    ensures var t := Tied(TopMatches(self, mine, ws, logs), x, Higher);
      |t| <= |Tied(Candidates(self, mine, ws, logs), x, Higher)|
      && t == Tied(Candidates(self, mine, ws, logs), x, Higher)[..|t|]
    ensures forall m :: m in Tied(TopMatches(self, mine, ws, logs), x, Higher) ==> SameScore(m.score, x)
  {
    var c := Candidates(self, mine, ws, logs);
    TopKeepsTieOrder(c, 5, x);
    TiedMembers(Top(c, 5), x, Higher);
  }

  // ---------------------------------------------------------------------
  // generateIntroduction

  /** What `generateIntroduction` reports: the two addresses cut to eight
      characters, the compatibility score, the common skills and the
      context; the rendered text itself is not modelled. */
  datatype Introduction = Introduction(first: string, second: string, score: Ratio, commonSkills: seq<string>, context: string)

  function GenerateIntroduction(a: Wallet, b: Wallet, logs: map<Wallet, seq<ChatEntry>>, context: string): (r: Introduction)
    ensures r.score == Score(ProfileOf(logs, a), ProfileOf(logs, b))
    ensures r.first == Take(a, 8) && r.second == Take(b, 8)
    ensures |r.first| <= 8 && |r.second| <= 8
    ensures forall s :: s in r.commonSkills <==> s in ProfileOf(logs, a).skills && s in ProfileOf(logs, b).skills
  {
    var pa, pb := ProfileOf(logs, a), ProfileOf(logs, b);
    Introduction(Take(a, 8), Take(b, 8), Score(pa, pb), Common(pa.skills, pb.skills), context)
  }

  /** The introduction's compatibility is the same whichever wallet is named
      first, and equals the score `findMatches` gives the pair. */
  lemma IntroductionSymmetric(a: Wallet, b: Wallet, logs: map<Wallet, seq<ChatEntry>>, context: string)
    ensures GenerateIntroduction(a, b, logs, context).score == GenerateIntroduction(b, a, logs, context).score
    ensures GenerateIntroduction(a, b, logs, context).score == Evaluate(ProfileOf(logs, a), b, ProfileOf(logs, b)).score
  {
    ScoreSymmetric(ProfileOf(logs, a), ProfileOf(logs, b));
  }
}
