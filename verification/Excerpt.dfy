/** Choosing the characters of a long filing that are analysed: bounded section heads
    first, then keyword windows in order of section quality. */
module Excerpt {
  import opened Basics
  import opened Spans
  import opened Sections
  import opened Allocation

  const PREFIX_CHARS: int := 24000
  const SUFFIX_CHARS: int := 28000
  const HEAD_CHARS: int := 4000
  const SECTION_BUDGET: int := 14000

  const SUBSTANTIVE: int := 3
  const FINANCIAL: int := 2
  const CONTEXT: int := 1
  const NOISE: int := -1

  // ---- phase 1: section heads ----

  function HeadSize(s: Section): int {
    if s.tier == SUBSTANTIVE || s.tier == FINANCIAL then MinInt(HEAD_CHARS, s.end - s.start) else 0
  }

  /** The bounded heads of the first i sections, added up. */
  function HeadsBefore(sections: seq<Section>, i: nat): int
    requires i <= |sections|
  {
    if i == 0 then 0 else HeadsBefore(sections, i - 1) + HeadSize(sections[i - 1])
  }

  /** What section i gets of its head: all of it, unless the budget ran out before. */
  function HeadTake(sections: seq<Section>, i: nat): int
    requires i < |sections|
  {
    MinInt(HeadSize(sections[i]), MaxInt(0, MAX_CHARS - HeadsBefore(sections, i)))
  }

  function HeadPick(sections: seq<Section>, i: nat): Span
    requires i < |sections|
  {
    Span(sections[i].start, sections[i].start + HeadTake(sections, i))
  }

  ghost predicate Ordered(sections: seq<Section>, n: int) {
    && n > 0 && Partition(sections, n)
    && (forall i, j :: 0 <= i < j < |sections| ==> sections[i].end <= sections[j].start)
    && (forall i :: 0 <= i < |sections| ==> 0 <= sections[i].start < sections[i].end <= n)
  }

  lemma {:induction false} PartitionOrdered(sections: seq<Section>, n: int)
    requires n > 0 && Partition(sections, n)
    ensures Ordered(sections, n)
  {
    forall i, j | 0 <= i < j < |sections| ensures sections[i].end <= sections[j].start {
      PartitionOrder(sections, n, i, j);
    }
    forall i | 0 <= i < |sections| ensures 0 <= sections[i].start < sections[i].end <= n {
      assert i > 0 ==> sections[0].end <= sections[i].start;
      assert i < |sections| - 1 ==> sections[i].end <= sections[|sections| - 1].start;
    }
  }

  lemma {:induction false} HeadsGrow(sections: seq<Section>, n: int, i: nat, j: nat)
    requires Ordered(sections, n) && i <= j <= |sections|
    ensures 0 <= HeadsBefore(sections, i) <= HeadsBefore(sections, j)
    decreases j
  {
    if i < j {
      HeadsGrow(sections, n, i, j - 1);
    } else if i > 0 {
      HeadsGrow(sections, n, i - 1, i - 1);
    }
  }

  /** Every bounded head is granted in full exactly if all of them together fit. */
  lemma {:induction false} EveryHeadFitsIff(sections: seq<Section>, n: int)
    requires Ordered(sections, n)
    ensures (forall i :: 0 <= i < |sections| ==> HeadTake(sections, i) == HeadSize(sections[i])) <==>
      HeadsBefore(sections, |sections|) <= MAX_CHARS
  {
    if HeadsBefore(sections, |sections|) <= MAX_CHARS {
      forall i | 0 <= i < |sections| ensures HeadTake(sections, i) == HeadSize(sections[i]) {
        HeadsGrow(sections, n, i + 1, |sections|);
      }
    } else {
      var i := FirstShort(sections, n, |sections|);
    }
  }

  lemma {:induction false} FirstShort(sections: seq<Section>, n: int, k: nat) returns (i: nat)
    requires Ordered(sections, n) && k <= |sections| && HeadsBefore(sections, k) > MAX_CHARS
    ensures i < k && HeadTake(sections, i) < HeadSize(sections[i])
  {
    if HeadsBefore(sections, k - 1) > MAX_CHARS {
      i := FirstShort(sections, n, k - 1);
    } else {
      i := k - 1;
    }
  }

  /** What the first i sections grant section k. */
  function Granted(sections: seq<Section>, i: nat, k: nat): int
    requires i <= |sections|
  {
    if k < i then HeadTake(sections, k) else 0
  }

  function HeadOf(spent: map<nat, int>, k: nat): int {
    if k in spent then spent[k] else 0
  }

  ghost predicate HeadsKept(sections: seq<Section>, i: nat, chosen: seq<Span>)
    requires i <= |sections|
  {
    forall k :: 0 <= k < i && HeadTake(sections, k) > 0 ==> HeadPick(sections, k) in chosen
  }

  /** Nothing but heads of the first i sections was picked. */
  ghost predicate OnlyHeads(sections: seq<Section>, i: nat, chosen: seq<Span>)
    requires i <= |sections|
  {
    forall j :: 0 <= j < |chosen| ==> FromHead(sections, i, chosen[j])
  }

  ghost predicate FromHead(sections: seq<Section>, i: nat, s: Span)
    requires i <= |sections|
  {
    exists k :: 0 <= k < i && IsHead(sections, k, s)
  }

  predicate IsHead(sections: seq<Section>, k: nat, s: Span)
    requires k < |sections|
  {
    HeadTake(sections, k) > 0 && s == HeadPick(sections, k)
  }

  lemma {:induction false} OnlyHeadsGrows(sections: seq<Section>, i: nat, j: nat, chosen: seq<Span>)
    requires i <= j <= |sections| && OnlyHeads(sections, i, chosen)
    ensures OnlyHeads(sections, j, chosen)
  {
    forall c | 0 <= c < |chosen| ensures FromHead(sections, j, chosen[c]) {
      assert FromHead(sections, i, chosen[c]);
    }
  }

  lemma {:induction false} OnlyOneMoreHead(sections: seq<Section>, i: nat, chosen: seq<Span>)
    requires i < |sections| && OnlyHeads(sections, i, chosen) && HeadTake(sections, i) > 0
    ensures OnlyHeads(sections, i + 1, chosen + [HeadPick(sections, i)])
  {
    OnlyHeadsGrows(sections, i, i + 1, chosen);
    assert IsHead(sections, i, HeadPick(sections, i));
  }

  /** A pick charged to a section lies in that section. */
  ghost predicate ChargedInside(chosen: seq<Span>, owners: seq<Owner>, sections: seq<Section>)
    requires |owners| == |chosen|
  {
    forall k :: 0 <= k < |owners| ==> owners[k].section.Some? ==> LiesIn(chosen[k], sections, owners[k].section.value)
  }

  predicate LiesIn(s: Span, sections: seq<Section>, i: nat) {
    i < |sections| && sections[i].start <= s.start && s.end <= sections[i].end
  }

  ghost predicate BeforeCandidates(owners: seq<Owner>) {
    forall k :: 0 <= k < |owners| ==> owners[k].rank == -1
  }

  /** After the heads of the first i sections: who was granted what, and what is charged. */
  ghost predicate HeadsDone(sections: seq<Section>, i: nat, chosen: seq<Span>, owners: seq<Owner>, spent: map<nat, int>)
    requires |owners| == |chosen|
  {
    && i <= |sections|
    && (forall k: nat :: HeadOf(spent, k) == Granted(sections, i, k))
    && (forall k: nat :: Charge(chosen, owners, k) == Granted(sections, i, k))
    && HeadsKept(sections, i, chosen)
    && ChargedInside(chosen, owners, sections) && BeforeCandidates(owners)
  }

  lemma {:induction false} HeadTaken(sections: seq<Section>, i: nat, chosen: seq<Span>, owners: seq<Owner>,
      spent: map<nat, int>, s: Span)
    requires i < |sections| && |owners| == |chosen| && sections[i].start < sections[i].end
    requires HeadsDone(sections, i, chosen, owners, spent) && HeadTake(sections, i) > 0
    requires s == HeadPick(sections, i)
    ensures HeadsDone(sections, i + 1, chosen + [s], owners + [Owner(Some(i), -1)], spent[i := HeadTake(sections, i)])
  {
    var o := Owner(Some(i), -1);
    var spent' := spent[i := HeadTake(sections, i)];
    forall k: nat
      ensures HeadOf(spent', k) == Granted(sections, i + 1, k)
      ensures Charge(chosen + [s], owners + [o], k) == Granted(sections, i + 1, k)
    {
      ChargeAppend(chosen, owners, s, o, k);
      assert HeadOf(spent, k) == Granted(sections, i, k) == Charge(chosen, owners, k);
    }
    HeadKept(sections, i, chosen, s);
    assert LiesIn(s, sections, i);
  }

  lemma {:induction false} HeadKept(sections: seq<Section>, i: nat, chosen: seq<Span>, s: Span)
    requires i < |sections| && HeadsKept(sections, i, chosen) && s == HeadPick(sections, i)
    ensures HeadsKept(sections, i + 1, chosen + [s])
  {
    assert (chosen + [s])[|chosen|] == s;
  }

  lemma {:induction false} NoHead(sections: seq<Section>, i: nat, chosen: seq<Span>, owners: seq<Owner>,
      spent: map<nat, int>)
    requires i < |sections| && |owners| == |chosen|
    requires HeadsDone(sections, i, chosen, owners, spent) && HeadTake(sections, i) == 0
    ensures HeadsDone(sections, i + 1, chosen, owners, spent)
  {
    assert forall k: nat :: Granted(sections, i + 1, k) == Granted(sections, i, k);
  }

  lemma {:induction false} HeadsStop(sections: seq<Section>, n: int, i: nat, chosen: seq<Span>, owners: seq<Owner>,
      spent: map<nat, int>)
    requires Ordered(sections, n) && i <= |sections| && |owners| == |chosen|
    requires HeadsDone(sections, i, chosen, owners, spent) && HeadsBefore(sections, i) >= MAX_CHARS
    ensures HeadsDone(sections, |sections|, chosen, owners, spent)
    ensures HeadsBefore(sections, |sections|) >= MAX_CHARS
  {
    HeadsGrow(sections, n, i, |sections|);
    forall k: nat
      ensures HeadOf(spent, k) == Granted(sections, |sections|, k) == Charge(chosen, owners, k)
      ensures i <= k < |sections| ==> HeadTake(sections, k) == 0
    {
      assert HeadOf(spent, k) == Granted(sections, i, k) == Charge(chosen, owners, k);
      if i <= k < |sections| {
        HeadsGrow(sections, n, i, k);
      }
    }
  }

  lemma {:induction false} BudgetShrinks(sections: seq<Section>, n: int, i: nat, budget: int)
    requires Ordered(sections, n) && i < |sections|
    requires 0 < budget == MaxInt(0, MAX_CHARS - HeadsBefore(sections, i))
    ensures HeadTake(sections, i) == MinInt(HeadSize(sections[i]), budget)
    ensures budget - HeadTake(sections, i) == MaxInt(0, MAX_CHARS - HeadsBefore(sections, i + 1))
  {
  }

  function NextStart(sections: seq<Section>, i: nat, n: int): int {
    if i < |sections| then sections[i].start else n
  }

  /** The state of the first phase before section i. */
  ghost predicate TakingHeads(sections: seq<Section>, n: int, i: nat, chosen: seq<Span>, owners: seq<Owner>,
      spent: map<nat, int>, budget: int) {
    && i <= |sections|
    && Allocated(chosen, owners, n, MAX_CHARS - budget)
    && Within(chosen, 0, NextStart(sections, i, n))
    && HeadsDone(sections, i, chosen, owners, spent) && OnlyHeads(sections, i, chosen)
    && budget == MaxInt(0, MAX_CHARS - HeadsBefore(sections, i))
  }

  lemma {:induction false} TakeOne(sections: seq<Section>, n: int, i: nat, chosen: seq<Span>, owners: seq<Owner>,
      spent: map<nat, int>, budget: int,
      chosen': seq<Span>, owners': seq<Owner>, spent': map<nat, int>, budget': int)
    requires Ordered(sections, n) && i < |sections| && budget > 0
    requires TakingHeads(sections, n, i, chosen, owners, spent, budget) && HeadTake(sections, i) > 0
    requires chosen' == chosen + [HeadPick(sections, i)] && owners' == owners + [Owner(Some(i), -1)]
    requires spent' == spent[i := HeadTake(sections, i)] && budget' == budget - HeadTake(sections, i)
    ensures TakingHeads(sections, n, i + 1, chosen', owners', spent', budget')
  {
    BudgetShrinks(sections, n, i, budget);
    HeadTaken(sections, i, chosen, owners, spent, HeadPick(sections, i));
    OnlyOneMoreHead(sections, i, chosen);
    PickAllocates(chosen, owners, n, MAX_CHARS - budget, HeadPick(sections, i), Owner(Some(i), -1));
    assert sections[i].end <= NextStart(sections, i + 1, n);
  }

  lemma {:induction false} TakeNone(sections: seq<Section>, n: int, i: nat, chosen: seq<Span>, owners: seq<Owner>,
      spent: map<nat, int>, budget: int)
    requires Ordered(sections, n) && i < |sections| && budget > 0
    requires TakingHeads(sections, n, i, chosen, owners, spent, budget) && HeadTake(sections, i) == 0
    ensures TakingHeads(sections, n, i + 1, chosen, owners, spent, budget)
  {
    BudgetShrinks(sections, n, i, budget);
    NoHead(sections, i, chosen, owners, spent);
    OnlyHeadsGrows(sections, i, i + 1, chosen);
    assert sections[i].end <= NextStart(sections, i + 1, n);
  }

  lemma {:induction false} HeadTakeIs(sections: seq<Section>, n: int, i: nat, chosen: seq<Span>,
      owners: seq<Owner>, spent: map<nat, int>, budget: int)
    requires Ordered(sections, n) && i < |sections| && budget > 0
    requires TakingHeads(sections, n, i, chosen, owners, spent, budget)
    ensures HeadTake(sections, i) == MinInt(HeadSize(sections[i]), budget) >= 0
  {
    BudgetShrinks(sections, n, i, budget);
  }

  lemma {:induction false} HeadsRunOut(sections: seq<Section>, n: int, i: nat, chosen: seq<Span>,
      owners: seq<Owner>, spent: map<nat, int>, budget: int)
    requires Ordered(sections, n) && TakingHeads(sections, n, i, chosen, owners, spent, budget) && budget <= 0
    ensures TakingHeads(sections, n, |sections|, chosen, owners, spent, budget)
  {
    HeadsStop(sections, n, i, chosen, owners, spent);
    OnlyHeadsGrows(sections, i, |sections|, chosen);
  }

  lemma {:induction false} NoHeadsYet(sections: seq<Section>, n: int)
    requires Ordered(sections, n)
    ensures TakingHeads(sections, n, 0, [], [], map[], MAX_CHARS)
  {
  }

  lemma {:induction false} AllHeadsTaken(sections: seq<Section>, n: int, chosen: seq<Span>, owners: seq<Owner>,
      spent: map<nat, int>, budget: int)
    requires TakingHeads(sections, n, |sections|, chosen, owners, spent, budget)
    ensures budget == MaxInt(0, MAX_CHARS - HeadsBefore(sections, |sections|)) && Total(chosen) == MAX_CHARS - budget
    ensures forall i: nat :: HeadOf(spent, i) == Granted(sections, |sections|, i)
  {
  }

  /** One section: its bounded head, as far as the budget goes. */
  method TakeHead(sections: seq<Section>, n: int, i: nat, chosen0: seq<Span>, ghost owners0: seq<Owner>,
      spent0: map<nat, int>, budget0: int)
    returns (chosen: seq<Span>, ghost owners: seq<Owner>, spent: map<nat, int>, budget: int)
    requires Ordered(sections, n) && i < |sections| && budget0 > 0
    requires TakingHeads(sections, n, i, chosen0, owners0, spent0, budget0)
    ensures TakingHeads(sections, n, i + 1, chosen, owners, spent, budget)
  {
    var s := sections[i];
    var take := 0;
    if s.tier == SUBSTANTIVE || s.tier == FINANCIAL {
      var headEnd := MinInt(s.start + HEAD_CHARS, s.end);
      take := MinInt(headEnd - s.start, budget0);
    }
    HeadTakeIs(sections, n, i, chosen0, owners0, spent0, budget0);
    chosen, owners, spent, budget := chosen0, owners0, spent0, budget0;
    if take > 0 {
      chosen := chosen + [Span(s.start, s.start + take)];
      owners := owners + [Owner(Some(i), -1)];
      spent := spent[i := take];
      budget := budget - take;
      TakeOne(sections, n, i, chosen0, owners0, spent0, budget0, chosen, owners, spent, budget);
    } else {
      TakeNone(sections, n, i, chosen0, owners0, spent0, budget0);
    }
  }

  /** Every substantive or financial section gets its bounded head, in document order,
      as long as the budget lasts. */
  method TakeHeads(sections: seq<Section>, n: int)
    returns (chosen: seq<Span>, ghost owners: seq<Owner>, spent: map<nat, int>, budget: int)
    requires Ordered(sections, n)
    ensures TakingHeads(sections, n, |sections|, chosen, owners, spent, budget)
    ensures budget == MaxInt(0, MAX_CHARS - HeadsBefore(sections, |sections|)) && Total(chosen) == MAX_CHARS - budget
    ensures forall i: nat :: HeadOf(spent, i) == Granted(sections, |sections|, i)
  {
    chosen, owners, spent, budget := [], [], map[], MAX_CHARS;
    NoHeadsYet(sections, n);
    var i := 0;
    while i < |sections|
      invariant i <= |sections| && TakingHeads(sections, n, i, chosen, owners, spent, budget)
    {
      if budget <= 0 {
        HeadsRunOut(sections, n, i, chosen, owners, spent, budget);
        break;
      }
      chosen, owners, spent, budget := TakeHead(sections, n, i, chosen, owners, spent, budget);
      i := i + 1;
    }
    AllHeadsTaken(sections, n, chosen, owners, spent, budget);
  }

  // ---- phase 2: ranked candidates ----

  datatype Candidate = Candidate(quality: int, windows: seq<Span>, section: Option<nat>)

  /** The tier counts first; more keywords count within a tier. */
  function Quality(tier: int, keywords: int): int {
    tier * 100000 + MinInt(keywords, 100)
  }

  /** A higher tier outranks a lower one, whatever the keywords; within a tier, more keywords
      do, up to a hundred of them. */
  lemma {:induction false} TierDominates(tier: int, keywords: nat, tier': int, keywords': nat)
    ensures tier > tier' ==> Quality(tier, keywords) > Quality(tier', keywords')
    ensures tier == tier' ==>
      (Quality(tier, keywords) > Quality(tier', keywords') <==> MinInt(keywords, 100) > MinInt(keywords', 100))
  {
  }

  predicate Overlaps(s: Section, start: int, end: int) { s.start < end && s.end > start }

  lemma {:induction false} OverlapsIff(s: Section, start: int, end: int)
    requires s.start < s.end && start < end
    ensures Overlaps(s, start, end) <==> exists x :: s.Has(x) && start <= x < end
  {
    var x := MaxInt(s.start, start);
    assert Overlaps(s, start, end) ==> s.Has(x) && start <= x < end;
  }

  /** The tier is the weakest of the sections that overlap a range, or that of context
      if there are none. */
  ghost predicate Weakest(sections: seq<Section>, start: int, end: int, tier: int) {
    if forall i :: 0 <= i < |sections| ==> !Overlaps(sections[i], start, end) then tier == CONTEXT
    else
      && (forall i :: 0 <= i < |sections| && Overlaps(sections[i], start, end) ==> tier <= sections[i].tier)
      && (exists i :: 0 <= i < |sections| && Overlaps(sections[i], start, end) && sections[i].tier == tier)
  }

  method OverlapTier(sections: seq<Section>, start: int, end: int) returns (tier: int)
    ensures Weakest(sections, start, end, tier)
  {
    var least: Option<int> := None;
    for i := 0 to |sections|
      invariant least.None? ==> forall k :: 0 <= k < i ==> !Overlaps(sections[k], start, end)
      invariant least.Some? ==> forall k :: 0 <= k < i && Overlaps(sections[k], start, end) ==>
        least.value <= sections[k].tier
      invariant least.Some? ==>
        exists k :: 0 <= k < i && Overlaps(sections[k], start, end) && sections[k].tier == least.value
    {
      if Overlaps(sections[i], start, end) {
        least := Some(if least.Some? then MinInt(least.value, sections[i].tier) else sections[i].tier);
      }
    }
    tier := if least.Some? then least.value else CONTEXT;
  }

  /** A candidate's windows are non-empty ranges of the document, and of its section. */
  ghost predicate CandidateOk(c: Candidate, sections: seq<Section>, n: int) {
    && c.windows != [] && Proper(c.windows) && Within(c.windows, 0, n)
    && (c.section.Some? ==>
          && c.section.value < |sections|
          && Within(c.windows, sections[c.section.value].start, sections[c.section.value].end))
  }

  ghost predicate CandidatesOk(cs: seq<Candidate>, sections: seq<Section>, n: int) {
    forall r :: 0 <= r < |cs| ==> CandidateOk(cs[r], sections, n)
  }

  /** No section has two candidates. */
  ghost predicate OnePerSection(cs: seq<Candidate>) {
    forall a, b :: 0 <= a < b < |cs| && cs[a].section.Some? ==> cs[a].section != cs[b].section
  }

  /** A section's candidate: all its keyword windows, ranked by tier and density. */
  ghost predicate OfSection(c: Candidate, sections: seq<Section>, matches: seq<Span>) {
    && c.section.Some? && c.section.value < |sections|
    && var windows := WindowsIn(sections[c.section.value], matches);
    && c.quality == Quality(sections[c.section.value].tier, |windows|)
    && Covers(c.windows, windows) && AddsSmallGaps(windows, c.windows)
  }

  ghost predicate HasCandidate(cs: seq<Candidate>, i: nat) {
    exists r :: 0 <= r < |cs| && cs[r].section == Some(i)
  }

  /** The first i sections have their candidates, in document order. */
  ghost predicate Collected(cs: seq<Candidate>, sections: seq<Section>, i: nat, matches: seq<Span>) {
    && i <= |sections|
    && (forall r :: 0 <= r < |cs| ==> OfSection(cs[r], sections, matches) && cs[r].section.value < i)
    && (forall k :: 0 <= k < i && WindowsIn(sections[k], matches) != [] ==> HasCandidate(cs, k))
  }

  lemma {:induction false} CollectOne(cs: seq<Candidate>, sections: seq<Section>, n: int, i: nat,
      matches: seq<Span>, c: Candidate)
    requires Collected(cs, sections, i, matches) && OfSection(c, sections, matches) && c.section == Some(i)
    requires CandidatesOk(cs, sections, n) && OnePerSection(cs) && CandidateOk(c, sections, n)
    ensures Collected(cs + [c], sections, i + 1, matches)
    ensures CandidatesOk(cs + [c], sections, n) && OnePerSection(cs + [c])
  {
    var cs' := cs + [c];
    forall k | 0 <= k < i + 1 && WindowsIn(sections[k], matches) != [] ensures HasCandidate(cs', k) {
      if k < i {
        var r :| 0 <= r < |cs| && cs[r].section == Some(k);
        assert cs'[r] == cs[r];
      } else {
        assert cs'[|cs|] == c;
      }
    }
  }

  lemma {:induction false} CollectNone(cs: seq<Candidate>, sections: seq<Section>, i: nat, matches: seq<Span>)
    requires i < |sections| && Collected(cs, sections, i, matches) && WindowsIn(sections[i], matches) == []
    ensures Collected(cs, sections, i + 1, matches)
  {
  }

  lemma {:induction false} MergedWithin(windows: seq<Span>, merged: seq<Span>, lo: int, hi: int)
    requires Within(windows, lo, hi)
    requires forall k :: 0 <= k < |merged| ==> EndsFrom(windows, merged[k])
    ensures Within(merged, lo, hi)
  {
    forall k | 0 <= k < |merged| ensures lo <= merged[k].start && merged[k].end <= hi {
      assert EndsFrom(windows, merged[k]);
    }
  }

  /** One candidate for each section with a keyword window, in document order. */
  method SectionCandidates(sections: seq<Section>, n: int, matches: seq<Span>) returns (cs: seq<Candidate>)
    requires Ordered(sections, n) && InDocument(matches, n)
    ensures CandidatesOk(cs, sections, n) && OnePerSection(cs)
    ensures Collected(cs, sections, |sections|, matches)
  {
    var windows, counts := KeywordWindows(sections, n, matches);
    cs := [];
    for i := 0 to |sections|
      invariant CandidatesOk(cs, sections, n) && OnePerSection(cs)
      invariant Collected(cs, sections, i, matches)
    {
      var mine := Lookup(windows, i);
      if mine != [] {
        WindowsStayInSection(sections[i], matches, n);
        var merged := MergeSpans(mine);
        MergedWithin(mine, merged, sections[i].start, sections[i].end);
        var c := Candidate(Quality(sections[i].tier, counts[i]), merged, Some(i));
        CollectOne(cs, sections, n, i, matches, c);
        cs := cs + [c];
      } else {
        CollectNone(cs, sections, i, matches);
      }
    }
  }

  // ---- sorted(), by quality downwards and then by first character ----

  predicate Outranks(c: Candidate, d: Candidate)
    requires c.windows != [] && d.windows != []
  {
    c.quality > d.quality || (c.quality == d.quality && c.windows[0].start < d.windows[0].start)
  }

  ghost predicate Windowed(cs: seq<Candidate>) {
    forall r :: 0 <= r < |cs| ==> cs[r].windows != []
  }

  ghost predicate InRank(cs: seq<Candidate>)
    requires Windowed(cs)
  {
    forall a, b :: 0 <= a < b < |cs| ==> !Outranks(cs[b], cs[a])
  }

  /** Behind every candidate it does not outrank, so that equals keep their order. */
  function PutIn(c: Candidate, cs: seq<Candidate>): (out: seq<Candidate>)
    requires c.windows != [] && Windowed(cs)
    ensures Windowed(out) && |out| == |cs| + 1
    ensures forall d :: d in out <==> d == c || d in cs
  {
    if cs == [] then [c]
    else if Outranks(c, cs[0]) then [c] + cs
    else
      var rest := PutIn(c, cs[1..]);
      assert cs == [cs[0]] + cs[1..];
      [cs[0]] + rest
  }

  function Ranked(cs: seq<Candidate>): (out: seq<Candidate>)
    requires Windowed(cs)
    ensures Windowed(out) && |out| == |cs|
    ensures forall d :: d in out <==> d in cs
  {
    if cs == [] then [] else
      var n := |cs| - 1;
      assert cs == cs[..n] + [cs[n]];
      PutIn(cs[n], Ranked(cs[..n]))
  }

  lemma {:induction false} PutInRanks(c: Candidate, cs: seq<Candidate>)
    requires c.windows != [] && Windowed(cs) && InRank(cs)
    ensures InRank(PutIn(c, cs))
  {
    if cs != [] && !Outranks(c, cs[0]) {
      var rest := PutIn(c, cs[1..]);
      PutInRanks(c, cs[1..]);
      forall d | d in rest ensures !Outranks(d, cs[0]) {
        assert d == c || d in cs[1..];
      }
    }
  }

  lemma {:induction false} PutInOnePerSection(c: Candidate, cs: seq<Candidate>)
    requires c.windows != [] && Windowed(cs) && OnePerSection(cs)
    requires forall r :: 0 <= r < |cs| && c.section.Some? ==> cs[r].section != c.section
    ensures OnePerSection(PutIn(c, cs))
  {
    if cs != [] && !Outranks(c, cs[0]) {
      var rest := PutIn(c, cs[1..]);
      PutInOnePerSection(c, cs[1..]);
      forall d | d in rest && cs[0].section.Some? ensures d.section != cs[0].section {
        assert d == c || d in cs[1..];
      }
    }
  }

  lemma {:induction false} RankedRanks(cs: seq<Candidate>)
    requires Windowed(cs)
    ensures InRank(Ranked(cs))
    ensures OnePerSection(cs) ==> OnePerSection(Ranked(cs))
  {
    if cs != [] {
      var n := |cs| - 1;
      RankedRanks(cs[..n]);
      PutInRanks(cs[n], Ranked(cs[..n]));
      if OnePerSection(cs) {
        forall d | d in Ranked(cs[..n]) && d.section.Some? ensures d.section != cs[n].section {
          assert d in cs[..n];
        }
        PutInOnePerSection(cs[n], Ranked(cs[..n]));
      }
    }
  }

  /** Neither candidate comes first by quality and position. */
  predicate Tied(c: Candidate, d: Candidate)
    requires c.windows != [] && d.windows != []
  {
    !Outranks(c, d) && !Outranks(d, c)
  }

  function TiedWith(cs: seq<Candidate>, d: Candidate): seq<Candidate>
    requires Windowed(cs) && d.windows != []
  {
    if cs == [] then []
    else if Tied(cs[0], d) then [cs[0]] + TiedWith(cs[1..], d)
    else TiedWith(cs[1..], d)
  }

  lemma {:induction false} TiedPutIn(c: Candidate, cs: seq<Candidate>, d: Candidate)
    requires c.windows != [] && d.windows != [] && Windowed(cs) && InRank(cs)
    ensures TiedWith(PutIn(c, cs), d) == TiedWith(cs, d) + if Tied(c, d) then [c] else []
  {
    if cs == [] {
    } else if Outranks(c, cs[0]) {
      if Tied(c, d) {
        NoneTied(cs, d);
      }
    } else {
      TiedPutIn(c, cs[1..], d);
    }
  }

  lemma {:induction false} NoneTied(cs: seq<Candidate>, d: Candidate)
    requires Windowed(cs) && d.windows != [] && forall r :: 0 <= r < |cs| ==> !Tied(cs[r], d)
    ensures TiedWith(cs, d) == []
  {
    if cs != [] {
      NoneTied(cs[1..], d);
    }
  }

  /** Ranking is stable: candidates that tie keep the order they were found in. */
  lemma {:induction false} RankedIsStable(cs: seq<Candidate>, d: Candidate)
    requires Windowed(cs) && d.windows != []
    ensures TiedWith(Ranked(cs), d) == TiedWith(cs, d)
  {
    if cs != [] {
      var n := |cs| - 1;
      RankedIsStable(cs[..n], d);
      RankedRanks(cs[..n]);
      TiedPutIn(cs[n], Ranked(cs[..n]), d);
      TiedAppend(cs[..n], cs[n], d);
      assert cs == cs[..n] + [cs[n]];
    }
  }

  lemma {:induction false} TiedAppend(cs: seq<Candidate>, c: Candidate, d: Candidate)
    requires c.windows != [] && d.windows != [] && Windowed(cs)
    ensures TiedWith(cs + [c], d) == TiedWith(cs, d) + if Tied(c, d) then [c] else []
  {
    if cs != [] {
      TiedAppend(cs[1..], c, d);
      assert (cs + [c])[1..] == cs[1..] + [c];
    }
  }

  // ---- both phases ----

  /** All of a candidate's windows were picked, or its section's budget is used up. */
  ghost predicate Satisfied(chosen: seq<Span>, owners: seq<Owner>, c: Candidate)
    requires |owners| == |chosen|
  {
    Covers(chosen, c.windows) || (c.section.Some? && Charge(chosen, owners, c.section.value) == 14000)
  }

  /** A pick is only made once every better ranked candidate is satisfied. */
  ghost predicate Priority(chosen: seq<Span>, owners: seq<Owner>, ranked: seq<Candidate>)
    requires |owners| == |chosen|
  {
    forall k, q :: 0 <= k < |owners| && 0 <= q < |ranked| && q < owners[k].rank ==> Satisfied(chosen, owners, ranked[q])
  }

  /** No section is charged more than its budget. */
  ghost predicate SectionsCapped(chosen: seq<Span>, owners: seq<Owner>)
    requires |owners| == |chosen|
  {
    forall i: nat :: 0 <= Charge(chosen, owners, i) <= 14000
  }

  /** The first r ranked candidates are served; the sections of the others were charged
      for their heads only. */
  ghost predicate Serving(chosen: seq<Span>, owners: seq<Owner>, ranked: seq<Candidate>, r: nat,
      spent: map<nat, int>, budget: int)
    requires |owners| == |chosen|
  {
    && r <= |ranked|
    && (forall k :: 0 <= k < |owners| ==> owners[k].rank < r)
    && (budget > 0 ==> forall q :: 0 <= q < r ==> Satisfied(chosen, owners, ranked[q]))
    && (forall q :: r <= q < |ranked| && ranked[q].section.Some? ==>
          Charge(chosen, owners, ranked[q].section.value) == HeadOf(spent, ranked[q].section.value))
  }

  /** A character picked for a section head or a candidate before rank q. */
  ghost predicate PickedBefore(chosen: seq<Span>, owners: seq<Owner>, q: int, x: int)
    requires |owners| == |chosen|
  {
    exists k :: 0 <= k < |chosen| && owners[k].rank < q && chosen[k].Has(x)
  }

  /** The characters of the heads and of what better ranked candidates were given. */
  ghost function BetterChars(chosen: seq<Span>, owners: seq<Owner>, q: int, n: int): set<int>
    requires |owners| == |chosen|
  {
    set x | 0 <= x < n && PickedBefore(chosen, owners, q, x)
  }

  /** Every pick is a head's or lies inside a window of the candidate it was made for. */
  ghost predicate PicksServe(chosen: seq<Span>, owners: seq<Owner>, ranked: seq<Candidate>)
    requires |owners| == |chosen|
  {
    forall k :: 0 <= k < |owners| && owners[k].rank >= 0 ==>
      owners[k].rank < |ranked| && Inside(chosen[k], ranked[owners[k].rank].windows)
  }

  /** The most a candidate can be given: all its windows, and of its section's budget what
      the section's head leaves. */
  function Need(c: Candidate, sections: seq<Section>): int {
    if c.section.Some? && c.section.value < |sections|
    then MinInt(14000 - HeadTake(sections, c.section.value), Total(c.windows))
    else Total(c.windows)
  }

  function Needs(cs: seq<Candidate>, sections: seq<Section>): int {
    if cs == [] then 0 else Need(cs[0], sections) + Needs(cs[1..], sections)
  }

  /** Heads and better ranked candidates together get no more than they can be given. */
  ghost predicate WithinNeeds(chosen: seq<Span>, owners: seq<Owner>, ranked: seq<Candidate>, r: nat,
      sections: seq<Section>, n: int)
    requires |owners| == |chosen|
  {
    r <= |ranked| && forall q: nat :: q <= r ==> NeedsBound(chosen, owners, ranked, q, sections, n)
  }

  ghost predicate NeedsBound(chosen: seq<Span>, owners: seq<Owner>, ranked: seq<Candidate>, q: nat,
      sections: seq<Section>, n: int)
    requires |owners| == |chosen| && q <= |ranked|
  {
    |BetterChars(chosen, owners, q, n)| <= HeadsBefore(sections, |sections|) + Needs(ranked[..q], sections)
  }

  lemma {:induction false} AllBetter(chosen: seq<Span>, owners: seq<Owner>, q: int, n: int)
    requires |owners| == |chosen| && forall k :: 0 <= k < |owners| ==> owners[k].rank < q
    ensures BetterChars(chosen, owners, q, n) == Chars(chosen, n)
  {
    forall x ensures PickedBefore(chosen, owners, q, x) <==> Covered(chosen, x) {
      if Covered(chosen, x) {
        var k :| 0 <= k < |chosen| && chosen[k].Has(x);
        assert owners[k].rank < q;
      }
    }
  }

  lemma {:induction false} BetterStays(chosen: seq<Span>, owners: seq<Owner>, chosen': seq<Span>,
      owners': seq<Owner>, o: Owner, q: int, n: int)
    requires Extends(chosen, owners, chosen', owners', o) && q <= o.rank
    ensures BetterChars(chosen', owners', q, n) == BetterChars(chosen, owners, q, n)
  {
    forall k | 0 <= k < |chosen| ensures chosen'[k] == chosen[k] && owners'[k] == owners[k] {
      assert chosen'[..|chosen|][k] == chosen[k] && owners'[..|owners|][k] == owners[k];
    }
    forall x | PickedBefore(chosen', owners', q, x) ensures PickedBefore(chosen, owners, q, x) {
      var k :| 0 <= k < |chosen'| && owners'[k].rank < q && chosen'[k].Has(x);
      assert k < |chosen|;
    }
    forall x | PickedBefore(chosen, owners, q, x) ensures PickedBefore(chosen', owners', q, x) {
      var k :| 0 <= k < |chosen| && owners[k].rank < q && chosen[k].Has(x);
      assert owners'[k].rank < q && chosen'[k].Has(x);
    }
  }

  lemma {:induction false} TotalNonnegative(spans: seq<Span>)
    requires Proper(spans)
    ensures Total(spans) >= 0
  {
    if spans != [] {
      TotalNonnegative(spans[..|spans| - 1]);
    }
  }

  lemma {:induction false} NeedsAppend(cs: seq<Candidate>, more: seq<Candidate>, sections: seq<Section>)
    ensures Needs(cs + more, sections) == Needs(cs, sections) + Needs(more, sections)
  {
    if cs == [] {
      assert cs + more == more;
    } else {
      NeedsAppend(cs[1..], more, sections);
      assert (cs + more)[1..] == cs[1..] + more;
    }
  }

  lemma {:induction false} NeedsOneMore(ranked: seq<Candidate>, r: nat, sections: seq<Section>)
    requires r < |ranked|
    ensures Needs(ranked[..r + 1], sections) == Needs(ranked[..r], sections) + Need(ranked[r], sections)
  {
    assert ranked[..r + 1] == ranked[..r] + [ranked[r]];
    NeedsAppend(ranked[..r], [ranked[r]], sections);
  }

  /** One candidate's turn takes no more than its need. */
  lemma {:induction false} TurnWithinNeed(chosen: seq<Span>, c: Candidate, sections: seq<Section>, n: int,
      spent: map<nat, int>, budget: int, cap: int, used: int)
    requires CandidateOk(c, sections, n) && (forall k: nat :: HeadOf(spent, k) == Granted(sections, |sections|, k))
    requires cap == if c.section.None? then budget
      else MinInt(SECTION_BUDGET - HeadOf(spent, c.section.value), budget)
    requires used == MinInt(cap, |FreeChars(chosen, c.windows, n)|)
    ensures used <= Need(c, sections)
  {
    CharsCounted(c.windows, n);
    Subset(FreeChars(chosen, c.windows, n), Chars(c.windows, n));
  }

  lemma {:induction false} TurnKeepsNeeds(chosen: seq<Span>, owners: seq<Owner>, chosen': seq<Span>,
      owners': seq<Owner>, o: Owner, ranked: seq<Candidate>, r: nat, sections: seq<Section>, n: int,
      budget: int, budget': int)
    requires Allocated(chosen, owners, n, MAX_CHARS - budget) && Allocated(chosen', owners', n, MAX_CHARS - budget')
    requires r < |ranked| && WithinNeeds(chosen, owners, ranked, r, sections, n)
    requires Extends(chosen, owners, chosen', owners', o) && o.rank == r
    requires forall k :: 0 <= k < |owners| ==> owners[k].rank < r
    requires budget - budget' <= Need(ranked[r], sections)
    ensures WithinNeeds(chosen', owners', ranked, r + 1, sections, n)
  {
    assert NeedsBound(chosen, owners, ranked, r, sections, n);
    AllBetter(chosen, owners, r, n);
    CharsCounted(chosen, n);
    CharsCounted(chosen', n);
    NeedsOneMore(ranked, r, sections);
    forall q: nat | q <= r + 1 ensures NeedsBound(chosen', owners', ranked, q, sections, n) {
      if q <= r {
        BetterStays(chosen, owners, chosen', owners', o, q, n);
        assert NeedsBound(chosen, owners, ranked, q, sections, n);
      } else {
        RanksBelow(chosen, owners, chosen', owners', o, r);
        AllBetter(chosen', owners', r + 1, n);
      }
    }
  }

  lemma {:induction false} RanksBelow(chosen: seq<Span>, owners: seq<Owner>, chosen': seq<Span>,
      owners': seq<Owner>, o: Owner, r: nat)
    requires Extends(chosen, owners, chosen', owners', o) && o.rank == r
    requires forall k :: 0 <= k < |owners| ==> owners[k].rank < r
    ensures forall k :: 0 <= k < |owners'| ==> owners'[k].rank < r + 1
  {
    forall k | 0 <= k < |owners'| ensures owners'[k].rank < r + 1 {
      assert k < |owners| ==> owners'[..|owners|][k] == owners[k];
    }
  }

  lemma {:induction false} TurnServes(chosen: seq<Span>, owners: seq<Owner>, chosen': seq<Span>,
      owners': seq<Owner>, o: Owner, ranked: seq<Candidate>, r: nat)
    requires Extends(chosen, owners, chosen', owners', o) && o.rank == r < |ranked|
    requires PicksServe(chosen, owners, ranked) && PicksInside(chosen', |chosen|, ranked[r].windows)
    ensures PicksServe(chosen', owners', ranked)
  {
    forall k | 0 <= k < |owners'| && owners'[k].rank >= 0
      ensures owners'[k].rank < |ranked| && Inside(chosen'[k], ranked[owners'[k].rank].windows)
    {
      if k < |owners| {
        assert owners'[..|owners|][k] == owners[k] && chosen'[..|chosen|][k] == chosen[k];
      }
    }
  }

  /** Candidates that get no turn any more leave everything as it is. */
  lemma {:induction false} NeedsOfTheRest(chosen: seq<Span>, owners: seq<Owner>, ranked: seq<Candidate>, r: nat,
      sections: seq<Section>, n: int)
    requires |owners| == |chosen| && WithinNeeds(chosen, owners, ranked, r, sections, n)
    requires Ordered(sections, n) && CandidatesOk(ranked, sections, n)
    requires forall k :: 0 <= k < |owners| ==> owners[k].rank < r
    ensures WithinNeeds(chosen, owners, ranked, |ranked|, sections, n)
  {
    AllBetter(chosen, owners, r, n);
    forall q: nat | q <= |ranked| ensures NeedsBound(chosen, owners, ranked, q, sections, n) {
      if q <= r {
        assert NeedsBound(chosen, owners, ranked, q, sections, n);
      } else {
        assert NeedsBound(chosen, owners, ranked, r, sections, n);
        AllBetter(chosen, owners, q, n);
        NeedsGrow(ranked, r, q, sections, n);
      }
    }
  }

  lemma {:induction false} NeedNonnegative(c: Candidate, sections: seq<Section>, n: int)
    requires Ordered(sections, n) && CandidateOk(c, sections, n)
    ensures Need(c, sections) >= 0
  {
    TotalNonnegative(c.windows);
  }

  lemma {:induction false} NeedsGrow(ranked: seq<Candidate>, r: nat, q: nat, sections: seq<Section>, n: int)
    requires r <= q <= |ranked| && Ordered(sections, n) && CandidatesOk(ranked, sections, n)
    ensures Needs(ranked[..r], sections) <= Needs(ranked[..q], sections)
    decreases q
  {
    if r < q {
      NeedsGrow(ranked, r, q - 1, sections, n);
      NeedsOneMore(ranked, q - 1, sections);
      assert CandidateOk(ranked[q - 1], sections, n);
      NeedNonnegative(ranked[q - 1], sections, n);
    }
  }

  lemma {:induction false} SatisfiedStays(chosen: seq<Span>, owners: seq<Owner>, chosen': seq<Span>,
      owners': seq<Owner>, o: Owner, spent: int, c: Candidate)
    requires Extends(chosen, owners, chosen', owners', o) && Charged(chosen, owners, chosen', owners', o, spent)
    requires spent >= 0 && SectionsCapped(chosen', owners')
    requires Satisfied(chosen, owners, c)
    ensures Satisfied(chosen', owners', c)
  {
    if Covers(chosen, c.windows) {
      forall x | Covered(c.windows, x) ensures Covered(chosen', x) {
        CoveredStays(chosen, chosen', x);
      }
    }
  }

  lemma {:induction false} ServeKeepsPriority(chosen: seq<Span>, owners: seq<Owner>, chosen': seq<Span>,
      owners': seq<Owner>, o: Owner, spent: int,
      ranked: seq<Candidate>, r: nat)
    requires Extends(chosen, owners, chosen', owners', o) && Charged(chosen, owners, chosen', owners', o, spent)
    requires spent >= 0 && SectionsCapped(chosen', owners') && o.rank == r <= |ranked|
    requires Priority(chosen, owners, ranked) && forall q :: 0 <= q < r ==> Satisfied(chosen, owners, ranked[q])
    ensures Priority(chosen', owners', ranked)
    ensures forall q :: 0 <= q < r ==> Satisfied(chosen', owners', ranked[q])
  {
    forall k, q | 0 <= k < |owners'| && 0 <= q < |ranked| && q < owners'[k].rank
      ensures Satisfied(chosen', owners', ranked[q])
    {
      assert k < |owners| ==> owners'[..|owners|][k] == owners[k];
      SatisfiedStays(chosen, owners, chosen', owners', o, spent, ranked[q]);
    }
    forall q | 0 <= q < r ensures Satisfied(chosen', owners', ranked[q]) {
      SatisfiedStays(chosen, owners, chosen', owners', o, spent, ranked[q]);
    }
  }

  lemma {:induction false} ServeKeepsInside(chosen: seq<Span>, owners: seq<Owner>, chosen': seq<Span>,
      owners': seq<Owner>, o: Owner,
      sections: seq<Section>, n: int, c: Candidate)
    requires Extends(chosen, owners, chosen', owners', o) && o.section == c.section
    requires ChargedInside(chosen, owners, sections) && CandidateOk(c, sections, n)
    requires PicksInside(chosen', |chosen|, c.windows)
    ensures ChargedInside(chosen', owners', sections)
  {
    forall k | 0 <= k < |owners'| && owners'[k].section.Some?
      ensures LiesIn(chosen'[k], sections, owners'[k].section.value)
    {
      if k < |owners| {
        assert owners'[..|owners|][k] == owners[k] && chosen'[..|chosen|][k] == chosen[k];
      } else {
        assert Inside(chosen'[k], c.windows);
      }
    }
  }

  lemma {:induction false} HeadsStay(sections: seq<Section>, chosen: seq<Span>, chosen': seq<Span>)
    requires HeadsKept(sections, |sections|, chosen) && |chosen| <= |chosen'| && chosen'[..|chosen|] == chosen
    ensures HeadsKept(sections, |sections|, chosen')
  {
    forall i | 0 <= i < |sections| && HeadTake(sections, i) > 0 ensures HeadPick(sections, i) in chosen' {
      var k :| 0 <= k < |chosen| && chosen[k] == HeadPick(sections, i);
      assert chosen'[..|chosen|][k] == chosen'[k];
    }
  }

  lemma {:induction false} ServeGoesOn(chosen: seq<Span>, owners: seq<Owner>, chosen': seq<Span>,
      owners': seq<Owner>, o: Owner,
      ranked: seq<Candidate>, r: nat, spent: map<nat, int>, budget: int, cap: int, budget': int, cap': int)
    requires |owners| == |chosen| && Serving(chosen, owners, ranked, r, spent, budget) && r < |ranked| && budget > 0
    requires OnePerSection(ranked) && SectionsCapped(chosen, owners)
    requires o == Owner(ranked[r].section, r)
    requires Extends(chosen, owners, chosen', owners', o)
    requires Charged(chosen, owners, chosen', owners', o, budget - budget')
    requires cap == if ranked[r].section.None? then budget
      else MinInt(SECTION_BUDGET - HeadOf(spent, ranked[r].section.value), budget)
    requires 0 <= cap' == cap - (budget - budget') <= cap
    requires cap' > 0 ==> Covers(chosen', ranked[r].windows)
    requires Priority(chosen, owners, ranked)
    ensures SectionsCapped(chosen', owners') && Priority(chosen', owners', ranked)
    ensures Serving(chosen', owners', ranked, r + 1, spent, budget')
  {
    assert SectionsCapped(chosen', owners');
    ServeKeepsPriority(chosen, owners, chosen', owners', o, budget - budget', ranked, r);
    forall k | 0 <= k < |owners'| ensures owners'[k].rank < r + 1 {
      assert k < |owners| ==> owners'[..|owners|][k] == owners[k];
    }
  }

  /** Serves the candidates in rank order. */
  method ServeCandidates(chosen0: seq<Span>, ghost owners0: seq<Owner>, spent: map<nat, int>, budget0: int,
      ranked: seq<Candidate>, sections: seq<Section>, ghost n: int)
    returns (chosen: seq<Span>, ghost owners: seq<Owner>, budget: int)
    requires Allocated(chosen0, owners0, n, MAX_CHARS - budget0) && budget0 >= 0
    requires HeadsDone(sections, |sections|, chosen0, owners0, spent) && Ordered(sections, n)
    requires MAX_CHARS - budget0 <= HeadsBefore(sections, |sections|)
    requires CandidatesOk(ranked, sections, n) && OnePerSection(ranked)
    ensures Allocated(chosen, owners, n, MAX_CHARS - budget) && 0 <= budget <= budget0
    ensures SectionsCapped(chosen, owners) && ChargedInside(chosen, owners, sections)
    ensures HeadsKept(sections, |sections|, chosen)
    ensures Priority(chosen, owners, ranked) && PicksServe(chosen, owners, ranked)
    ensures WithinNeeds(chosen, owners, ranked, |ranked|, sections, n)
    ensures budget > 0 ==> forall q :: 0 <= q < |ranked| ==> Satisfied(chosen, owners, ranked[q])
    ensures budget0 == 0 ==> chosen == chosen0
  {
    chosen, owners, budget := chosen0, owners0, budget0;
    HeadsServe(chosen, owners, spent, budget, ranked, sections, n);
    HeadsWithinNeeds(chosen, owners, budget, ranked, sections, n);
    var r := 0;
    while r < |ranked|
      invariant 0 <= r <= |ranked|
      invariant Allocated(chosen, owners, n, MAX_CHARS - budget) && 0 <= budget <= budget0
      invariant SectionsCapped(chosen, owners) && ChargedInside(chosen, owners, sections)
      invariant HeadsKept(sections, |sections|, chosen)
      invariant Priority(chosen, owners, ranked) && Serving(chosen, owners, ranked, r, spent, budget)
      invariant PicksServe(chosen, owners, ranked) && WithinNeeds(chosen, owners, ranked, r, sections, n)
      invariant budget0 == 0 ==> chosen == chosen0
    {
      if budget <= 0 { break; }
      var c := ranked[r];
      var cap := if c.section.None? then budget
                 else MinInt(SECTION_BUDGET - HeadOf(spent, c.section.value), budget);
      ghost var o := Owner(c.section, r);
      assert CandidateOk(c, sections, n);
      assert c.section.Some? ==> Charge(chosen, owners, c.section.value) == HeadOf(spent, c.section.value);
      var chosen', budget', cap';
      ghost var owners';
      chosen', owners', budget', cap' := SpendOn(chosen, owners, budget, cap, c.windows, o, n);
      ServeGoesOn(chosen, owners, chosen', owners', o, ranked, r, spent, budget, cap, budget', cap');
      ServeKeepsInside(chosen, owners, chosen', owners', o, sections, n, c);
      HeadsStay(sections, chosen, chosen');
      TurnServes(chosen, owners, chosen', owners', o, ranked, r);
      TurnWithinNeed(chosen, c, sections, n, spent, budget, cap, budget - budget');
      TurnKeepsNeeds(chosen, owners, chosen', owners', o, ranked, r, sections, n, budget, budget');
      chosen, owners, budget := chosen', owners', budget';
      r := r + 1;
    }
    NeedsOfTheRest(chosen, owners, ranked, r, sections, n);
  }

  lemma {:induction false} HeadsWithinNeeds(chosen: seq<Span>, owners: seq<Owner>, budget: int,
      ranked: seq<Candidate>, sections: seq<Section>, n: int)
    requires Allocated(chosen, owners, n, MAX_CHARS - budget) && BeforeCandidates(owners)
    requires MAX_CHARS - budget <= HeadsBefore(sections, |sections|)
    ensures PicksServe(chosen, owners, ranked) && WithinNeeds(chosen, owners, ranked, 0, sections, n)
  {
    AllBetter(chosen, owners, 0, n);
    CharsCounted(chosen, n);
  }

  lemma {:induction false} HeadsServe(chosen: seq<Span>, owners: seq<Owner>, spent: map<nat, int>, budget: int,
      ranked: seq<Candidate>, sections: seq<Section>, n: int)
    requires |owners| == |chosen| && HeadsDone(sections, |sections|, chosen, owners, spent) && Ordered(sections, n)
    ensures SectionsCapped(chosen, owners) && ChargedInside(chosen, owners, sections)
    ensures HeadsKept(sections, |sections|, chosen)
    ensures Priority(chosen, owners, ranked) && Serving(chosen, owners, ranked, 0, spent, budget)
  {
  }

  /** A fixed window belongs to no section and ranks by the weakest tier it overlaps. */
  ghost predicate FixedWindow(c: Candidate, sections: seq<Section>, start: int, end: int, tier: int) {
    c == Candidate(Quality(tier, 0), [Span(start, end)], None) && Weakest(sections, start, end, tier)
  }

  ghost predicate IsFixed(c: Candidate, sections: seq<Section>, start: int, end: int) {
    exists tier :: FixedWindow(c, sections, start, end, tier)
  }

  /** The unchanged beginning and end of the document. */
  ghost predicate FixedWindows(cs: seq<Candidate>, sections: seq<Section>, n: int) {
    && |cs| == 2
    && IsFixed(cs[0], sections, 0, MinInt(24000, n))
    && IsFixed(cs[1], sections, MaxInt(n - 28000, 0), n)
  }

  lemma {:induction false} FixedJoin(found: seq<Candidate>, fixed: seq<Candidate>, sections: seq<Section>, n: int)
    requires Ordered(sections, n) && FixedWindows(fixed, sections, n)
    requires CandidatesOk(found, sections, n) && OnePerSection(found)
    ensures CandidatesOk(found + fixed, sections, n) && OnePerSection(found + fixed)
  {
    assert CandidateOk(fixed[0], sections, n) && CandidateOk(fixed[1], sections, n);
    assert fixed[0].section.None? && fixed[1].section.None?;
  }

  /** All candidates: one for each section with keywords, then the fixed windows. */
  method AllCandidates(sections: seq<Section>, n: int, matches: seq<Span>) returns (found: seq<Candidate>,
      fixed: seq<Candidate>)
    requires Ordered(sections, n) && InDocument(matches, n)
    ensures CandidatesOk(found + fixed, sections, n) && OnePerSection(found + fixed)
    ensures Collected(found, sections, |sections|, matches) && FixedWindows(fixed, sections, n)
  {
    found := SectionCandidates(sections, n, matches);
    var prefixEnd := MinInt(PREFIX_CHARS, n);
    var suffixStart := MaxInt(n - SUFFIX_CHARS, 0);
    var first := OverlapTier(sections, 0, prefixEnd);
    var last := OverlapTier(sections, suffixStart, n);
    fixed := [Candidate(Quality(first, 0), [Span(0, prefixEnd)], None),
              Candidate(Quality(last, 0), [Span(suffixStart, n)], None)];
    assert FixedWindow(fixed[0], sections, 0, prefixEnd, first);
    assert FixedWindow(fixed[1], sections, suffixStart, n, last);
    FixedJoin(found, fixed, sections, n);
  }

  /** The candidates of a document, in the order they are served. */
  ghost predicate Served(ranked: seq<Candidate>, found: seq<Candidate>, fixed: seq<Candidate>,
      sections: seq<Section>, n: int, matches: seq<Span>) {
    && Collected(found, sections, |sections|, matches) && FixedWindows(fixed, sections, n)
    && Windowed(found + fixed) && ranked == Ranked(found + fixed) && CandidatesOk(ranked, sections, n)
  }

  /** Everything promised of one selection of a long document. */
  ghost predicate Selected(sections: seq<Section>, n: int, chosen: seq<Span>, owners: seq<Owner>,
      ranked: seq<Candidate>, budget: int) {
    && 0 <= budget && Allocated(chosen, owners, n, MAX_CHARS - budget)
    && SectionsCapped(chosen, owners) && ChargedInside(chosen, owners, sections)
    && HeadsKept(sections, |sections|, chosen)
    && Priority(chosen, owners, ranked) && PicksServe(chosen, owners, ranked)
    && WithinNeeds(chosen, owners, ranked, |ranked|, sections, n)
    && (budget > 0 ==> forall q :: 0 <= q < |ranked| ==> Satisfied(chosen, owners, ranked[q]))
    && (HeadsBefore(sections, |sections|) >= MAX_CHARS ==> OnlyHeads(sections, |sections|, chosen))
  }

  method SelectSpans(sections: seq<Section>, n: int, matches: seq<Span>)
    returns (chosen: seq<Span>, ghost owners: seq<Owner>, ranked: seq<Candidate>, ghost found: seq<Candidate>,
        ghost fixed: seq<Candidate>, budget: int)
    requires Ordered(sections, n) && InDocument(matches, n)
    ensures Served(ranked, found, fixed, sections, n, matches)
    ensures Selected(sections, n, chosen, owners, ranked, budget)
  {
    var spent;
    chosen, owners, spent, budget := TakeHeads(sections, n);
    var some, more := AllCandidates(sections, n, matches);
    found, fixed := some, more;
    var all := some + more;
    assert forall r :: 0 <= r < |all| ==> CandidateOk(all[r], sections, n);
    RankedRanks(all);
    ranked := Ranked(all);
    assert CandidatesOk(ranked, sections, n) by {
      forall r | 0 <= r < |ranked| ensures CandidateOk(ranked[r], sections, n) {
        assert ranked[r] in all;
      }
    }
    chosen, owners, budget := ServeCandidates(chosen, owners, spent, budget, ranked, sections, n);
  }

  /** If the bounded heads of all substantive and financial sections fit together,
      each of them is selected in full. */
  lemma {:induction false} EveryHeadSelected(sections: seq<Section>, n: int, chosen: seq<Span>, i: nat)
    requires Ordered(sections, n) && HeadsKept(sections, |sections|, chosen)
    requires HeadsBefore(sections, |sections|) <= 120000
    requires i < |sections| && (sections[i].tier == SUBSTANTIVE || sections[i].tier == FINANCIAL)
    ensures Span(sections[i].start, MinInt(sections[i].start + 4000, sections[i].end)) in chosen
  {
    assert HeadTake(sections, i) == HeadSize(sections[i]) by {
      EveryHeadFitsIff(sections, n);
    }
    assert HeadPick(sections, i) in chosen;
  }

  lemma {:induction false} HeadLiesInSection(sections: seq<Section>, n: int, k: nat, i: nat, s: Span, x: int)
    requires Ordered(sections, n) && k < |sections| && i < |sections| && IsHead(sections, k, s)
    requires HeadSize(sections[i]) == 0 && sections[i].start <= x < sections[i].end
    ensures !s.Has(x)
  {
    if k < i {
      assert s.end <= sections[k].end <= sections[i].start;
    } else if i < k {
      assert sections[i].end <= sections[k].start;
    }
  }

  lemma {:induction false} HeadlessUnselected(sections: seq<Section>, n: int, chosen: seq<Span>, i: nat, x: int)
    requires Ordered(sections, n) && OnlyHeads(sections, |sections|, chosen)
    requires i < |sections| && HeadSize(sections[i]) == 0 && sections[i].start <= x < sections[i].end
    ensures !Covered(chosen, x)
  {
    forall j | 0 <= j < |chosen| ensures !chosen[j].Has(x) {
      assert FromHead(sections, |sections|, chosen[j]);
      var k :| 0 <= k < |sections| && IsHead(sections, k, chosen[j]);
      HeadLiesInSection(sections, n, k, i, chosen[j], x);
    }
  }

  /** How the characters of a long document were selected. */
  datatype Selection = Selection(sections: seq<Section>, found: seq<Candidate>, fixed: seq<Candidate>,
      ranked: seq<Candidate>, chosen: seq<Span>, owners: seq<Owner>, budget: int)

  /** What is shown of a long document: a selection, merged where its ranges are close. */
  ghost predicate Excerpted(lines: seq<Line>, preamble: int, matches: seq<Span>, s: Selection, shown: seq<Span>) {
    var n := Length(lines);
    && Ordered(s.sections, n) && Tiered(s.sections, lines, preamble)
    && FromMarks(s.sections, SectionMarks(lines, preamble), n)
    && Served(s.ranked, s.found, s.fixed, s.sections, n, matches)
    && Selected(s.sections, n, s.chosen, s.owners, s.ranked, s.budget)
    && FarApart(shown) && Proper(shown) && Within(shown, 0, n)
    && Covers(shown, s.chosen) && AddsSmallGaps(s.chosen, shown)
  }

  /** The ranges of the document that are shown: all of a short one, and otherwise the
      merged selection. */
  method BuildExcerpt(lines: seq<Line>, preamble: int, matches: seq<Span>)
    returns (shown: seq<Span>, ghost selection: Selection)
    requires NonEmpty(lines) && InDocument(matches, Length(lines))
    ensures
      var n := Length(lines);
      if n <= MAX_CHARS then shown == [Span(0, n)] else FarApart(shown) && Proper(shown) && Within(shown, 0, n)
    ensures Length(lines) > MAX_CHARS ==> Excerpted(lines, preamble, matches, selection, shown)
  {
    var n := 0;
    for i := 0 to |lines|
      invariant n == Offset(lines, i)
    {
      n := n + lines[i].length;
    }
    selection := Selection([], [], [], [], [], [], 0);
    if n <= MAX_CHARS {
      shown := [Span(0, n)];
      return;
    }
    var sections := IterSections(lines, preamble);
    PartitionOrdered(sections, n);
    var spans, owners, ranked, found, fixed, left := SelectSpans(sections, n, matches);
    selection := Selection(sections, found, fixed, ranked, spans, owners, left);
    shown := MergeSpans(spans);
    MergedWithin(spans, shown, 0, n);
  }
}
