/** `splitQuestion` of control-plane/public/home.mjs: a headline the founder can
    scan, the rest of the text in the detail line. Characters are code units. */
module HeadlineSplit {
  import opened Collections

  const HEADLINE_MAX := 120
  const ELLIPSIS := "\U{2026}"
  const DASH := " \U{2014} "

  /** An absent `why` is "". */
  datatype Card = Card(question: string, why: string)

  predicate Stop(c: char) { c == '.' || c == '?' || c == '!' }

  function Slice(s: string, n: nat): string { if n < |s| then s[..n] else s }

  // window.search(/[.?!]\s/), from i on; -1 when there is none
  function Search(s: string, i: nat): int
    decreases |s| - i
  {
    if i + 1 >= |s| then -1
    else if Stop(s[i]) && IsSpace(s[i + 1]) then i
    else Search(s, i + 1)
  }

  // s.lastIndexOf(" ", from)
  function LastSpace(s: string, from: int): int {
    if from < 0 then -1
    else if from < |s| && s[from] == ' ' then from
    else LastSpace(s, from - 1)
  }

  function Cut(question: string): int {
    var window := Slice(question, HEADLINE_MAX + 40);
    var sentence := Search(window, 0);
    var space := LastSpace(window, HEADLINE_MAX);
    if 40 < sentence <= HEADLINE_MAX + 20 then sentence + 1
    else if space > 40 then space
    else HEADLINE_MAX
  }

  predicate EndsSentence(s: string) { s != "" && Stop(s[|s| - 1]) }

  function SplitQuestion(question: string, why: string): Card {
    if |question| <= HEADLINE_MAX then Card(question, why)
    else
      var cut := Cut(question);
      CutInside(question);
      var head := Trim(question[..cut]);
      var rest := Trim(question[cut..]);
      Card(if EndsSentence(head) then head else head + ELLIPSIS,
           if rest != "" && why != "" then rest + DASH + why else if rest != "" then rest else why)
  }

  lemma {:induction false} SearchFinds(s: string, i: nat)
    ensures var k := Search(s, i);
            && (k == -1 || (i <= k < |s| - 1 && Stop(s[k]) && IsSpace(s[k + 1])))
            && forall j :: i <= j < (if k == -1 then |s| - 1 else k) ==> !(Stop(s[j]) && IsSpace(s[j + 1]))
    decreases |s| - i
  {
    if i + 1 < |s| && !(Stop(s[i]) && IsSpace(s[i + 1])) { SearchFinds(s, i + 1); }
  }

  lemma {:induction false} LastSpaceFinds(s: string, from: int)
    requires from >= -1
    ensures var k := LastSpace(s, from);
            && (k == -1 || (0 <= k <= from && k < |s| && s[k] == ' '))
            && forall j :: k < j <= from && 0 <= j < |s| ==> s[j] != ' '
  {
    if from >= 0 && !(from < |s| && s[from] == ' ') { LastSpaceFinds(s, from - 1); }
  }

  lemma {:induction false} CutInside(question: string)
    requires |question| > HEADLINE_MAX
    ensures 40 < Cut(question) < |question| && Cut(question) <= HEADLINE_MAX + 21
  {
    var window := Slice(question, HEADLINE_MAX + 40);
    SearchFinds(window, 0);
    LastSpaceFinds(window, HEADLINE_MAX);
  }

  lemma {:induction false} TrimSplits(s: string) returns (before: string, after: string)
    ensures s == before + Trim(s) + after && AllSpace(before) && AllSpace(after)
    ensures Trim(s) != "" ==> !IsSpace(Trim(s)[0]) && !IsSpace(Trim(s)[|Trim(s)| - 1])
  {
    SkipSpacesCuts(s);
    var t := SkipSpaces(s);
    TrimEndCuts(t);
    before, after := s[..|s| - |t|], t[|TrimEnd(t)|..];
    if Trim(s) != "" { assert Trim(s)[0] == t[0]; }
  }

  /** Nothing is discarded: the headline's stem and the remainder rebuild the
      question, up to white space at the cut and at the ends; the remainder
      leads the detail line and `why` is kept behind it. */
  lemma {:induction false} NothingIsLost(question: string, why: string)
    returns (start: string, stem: string, gap: string, rest: string, end: string)
    ensures question == start + stem + gap + rest + end
    ensures |question| > HEADLINE_MAX ==> AllSpace(start) && AllSpace(gap) && AllSpace(end)
    ensures |question| <= HEADLINE_MAX ==> stem == question
    ensures var card := SplitQuestion(question, why);
            && card.question == (if |question| <= HEADLINE_MAX || (stem != "" && stem[|stem| - 1] in {'.', '?', '!'}) then stem else stem + ELLIPSIS)
            && card.why == (if rest == "" then why else if why == "" then rest else rest + DASH + why)
  {
    if |question| <= HEADLINE_MAX {
      start, stem, gap, rest, end := "", question, "", "", "";
    } else {
      CutInside(question);
      var gap1, gap2;
      start, gap1 := TrimSplits(question[..Cut(question)]);
      gap2, end := TrimSplits(question[Cut(question)..]);
      stem, gap, rest := Trim(question[..Cut(question)]), gap1 + gap2, Trim(question[Cut(question)..]);
      Rejoin(question, Cut(question), start, stem, gap1, gap2, rest, end);
    }
  }

  lemma {:induction false} Rejoin(s: string, cut: nat, a: string, b: string, c: string, d: string, e: string, f: string)
    requires cut <= |s| && s[..cut] == a + b + c && s[cut..] == d + e + f
    ensures s == a + b + (c + d) + e + f
  {
    assert s == s[..cut] + s[cut..];
  }

  /** The headline is never longer than 141 characters. */
  lemma {:induction false} HeadlineIsShort(question: string, why: string)
    ensures |SplitQuestion(question, why).question| <= HEADLINE_MAX + 21
  {
    if |question| > HEADLINE_MAX {
      CutInside(question);
      var cut := Cut(question);
      var before, after := TrimSplits(question[..cut]);
      var window := Slice(question, HEADLINE_MAX + 40);
      SearchFinds(window, 0);
      LastSpaceFinds(window, HEADLINE_MAX);
      if cut > HEADLINE_MAX {
        // only a sentence end lies that far out, and it needs no ellipsis
        var head := question[..cut];
        assert Stop(head[cut - 1]) && !IsSpace(head[cut - 1]);
        StopSurvivesTrim(head);
      }
    }
  }

  lemma {:induction false} StopSurvivesTrim(s: string)
    requires s != "" && Stop(s[|s| - 1])
    ensures EndsSentence(Trim(s))
  {
    SkipSpacesCuts(s);
    var t, last := SkipSpaces(s), s[|s| - 1];
    assert !IsSpace(last);
    assert t != "" && t[|t| - 1] == last;
    assert Trim(s) == t;
  }

  function Letters(n: nat): (s: string)
    ensures |s| == n && forall i :: 0 <= i < n ==> s[i] == 'a'
  {
    seq(n, _ => 'a')
  }

  /** And 141 is reached. */
  lemma {:induction false} BoundIsReached(why: string)
    ensures |SplitQuestion(Letters(140) + ". ok", why).question| == HEADLINE_MAX + 21
  {
    var q := Letters(140) + ". ok";
    var window := Slice(q, HEADLINE_MAX + 40);
    assert window == q;
    SearchFinds(q, 0);
    assert q[140] == '.' && q[141] == ' ';
    assert Search(q, 0) == 140;
    var head := q[..141];
    assert head[0] == 'a' && SkipSpaces(head) == head && TrimEnd(head) == head;
  }

  predicate SentenceEnd(s: string, i: nat) { i + 1 < |s| && s[i] in {'.', '?', '!'} && IsSpace(s[i + 1]) }

  /** The first sentence end of the question, where it is one to cut at. */
  predicate GoodEnd(s: string, k: nat) {
    40 < k <= HEADLINE_MAX + 20 && SentenceEnd(s, k) && forall j :: 0 <= j < k ==> !SentenceEnd(s, j)
  }

  /** Where the cut falls: after the first sentence end, if that lies in
      (40, 140]; else at the last blank in (40, 120], so that no word is broken;
      a word is broken, at 120, exactly when there is neither. */
  lemma {:induction false} CutAtABoundary(question: string)
    requires |question| > HEADLINE_MAX
    ensures 0 < Cut(question) < |question|
    ensures forall k: nat :: GoodEnd(question, k) ==> Cut(question) == k + 1
    ensures (forall k: nat :: !GoodEnd(question, k)) ==>
              var cut := Cut(question);
              if exists j :: 40 < j <= HEADLINE_MAX && question[j] == ' '
              then 40 < cut <= HEADLINE_MAX && question[cut] == ' ' && forall j :: cut < j <= HEADLINE_MAX ==> question[j] != ' '
              else cut == HEADLINE_MAX
  {
    var window := Slice(question, HEADLINE_MAX + 40);
    SearchFinds(window, 0);
    LastSpaceFinds(window, HEADLINE_MAX);
    CutInside(question);
    assert forall j :: 0 <= j <= HEADLINE_MAX + 20 ==> SentenceEnd(question, j) == SentenceEnd(window, j);
    var k := Search(window, 0);
    if k >= 0 { assert SentenceEnd(question, k); }
    forall i: nat | GoodEnd(question, i) ensures k == i {
      assert SentenceEnd(window, i);
    }
    if 40 < k <= HEADLINE_MAX + 20 { assert GoodEnd(question, k); }
    assert forall j :: 0 <= j <= HEADLINE_MAX ==> window[j] == question[j];
  }
}
