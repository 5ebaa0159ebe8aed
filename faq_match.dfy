/** How findBestMatch scores the FAQ catalogue against a message and which
    entry it picks: the active entries in order of decreasing priority, two
    points per keyword found in the lower-cased message, one point per long
    question word that overlaps a word of the message, and the first entry
    with the strictly highest positive score. */
module FaqMatch {
  import opened Wrappers
  import opened TextUtil
  import opened ChatModel
  import opened Sorting

  // ---------------------------------------------------------------------------
  // Counting

  /** How many elements of `s` satisfy `p`. */
  function Count<T>(s: seq<T>, p: T -> bool): (n: nat)
    ensures n <= |s|
  {
    if |s| == 0 then 0 else Count(s[..|s| - 1], p) + (if p(s[|s| - 1]) then 1 else 0)
  }

  /** Counting one more element of a prefix. */
  lemma CountStep<T>(s: seq<T>, p: T -> bool, i: nat)
    requires i < |s|
    ensures Count(s[..i + 1], p) == Count(s[..i], p) + (if p(s[i]) then 1 else 0)
  {
    assert s[..i + 1][..i] == s[..i];
  }

  /** The positions of `s` whose element satisfies `p`. */
  function Positions<T>(s: seq<T>, p: T -> bool): set<int> {
    set k | 0 <= k < |s| && p(s[k])
  }

  /** Count is the number of positions that satisfy the test. */
  lemma {:induction false} CountIsCardinality<T>(s: seq<T>, p: T -> bool)
    ensures Count(s, p) == |Positions(s, p)|
  {
    if |s| == 0 {
      assert Positions(s, p) == {};
    } else {
      var init := s[..|s| - 1];
      CountIsCardinality(init, p);
      var last := |s| - 1;
      assert Positions(init, p) == set k | 0 <= k < last && p(s[k]);
      if p(s[last]) {
        assert Positions(s, p) == Positions(init, p) + {last};
      } else {
        assert Positions(s, p) == Positions(init, p);
      }
    }
  }

  /** Nothing is counted exactly when no element passes the test. */
  lemma {:induction false} CountZeroIff<T>(s: seq<T>, p: T -> bool)
    ensures Count(s, p) == 0 <==> forall k :: 0 <= k < |s| ==> !p(s[k])
  {
    if |s| > 0 {
      var init := s[..|s| - 1];
      CountZeroIff(init, p);
      assert forall k :: 0 <= k < |init| ==> init[k] == s[k];
    }
  }

  /** Two tests that agree on every element count the same. */
  lemma {:induction false} CountAgrees<T>(s: seq<T>, p: T -> bool, q: T -> bool)
    requires forall k :: 0 <= k < |s| ==> p(s[k]) == q(s[k])
    ensures Count(s, p) == Count(s, q)
  {
    if |s| > 0 {
      var init := s[..|s| - 1];
      assert forall k :: 0 <= k < |init| ==> init[k] == s[k];
      CountAgrees(init, p, q);
    }
  }

  // ---------------------------------------------------------------------------
  // Scoring one entry

  /** The keyword test: the keyword, lower-cased, occurs in the lower-cased message. */
  function InMessage(msgLower: string): string -> bool {
    (k: string) => Includes(msgLower, Lower(k))
  }

  /** The number of keywords that occur, lower-cased, in the lower-cased message. */
  function KeywordHits(keywords: seq<string>, msgLower: string): nat {
    Count(keywords, InMessage(msgLower))
  }

  /** userWords.some(u => u.includes(word) || word.includes(u)) */
  function Overlaps(word: string, userWords: seq<string>): (r: bool)
    ensures r <==> exists j :: 0 <= j < |userWords| && (Includes(userWords[j], word) || Includes(word, userWords[j]))
  {
    if |userWords| == 0 then false
    else Includes(userWords[0], word) || Includes(word, userWords[0]) || Overlaps(word, userWords[1..])
  }

  /** A question word earns a point when it is longer than three characters
      and overlaps some word of the message. */
  predicate WordHit(word: string, userWords: seq<string>) {
    |word| > 3 && Overlaps(word, userWords)
  }

  function EarnsPoint(userWords: seq<string>): string -> bool {
    (w: string) => WordHit(w, userWords)
  }

  /** The number of question words that earn a point. */
  function QuestionHits(questionWords: seq<string>, userWords: seq<string>): nat {
    Count(questionWords, EarnsPoint(userWords))
  }

  function QuestionWords(f: FaqEntry): seq<string> {
    Split(Lower(f.question), ' ')
  }

  /** The score of one entry against the lower-cased message. */
  function Score(f: FaqEntry, msgLower: string): nat {
    2 * KeywordHits(f.keywords, msgLower) + QuestionHits(QuestionWords(f), Split(msgLower, ' '))
  }

  /** The score counts keyword positions twice and question-word positions once. */
  lemma ScoreCounts(f: FaqEntry, msgLower: string)
    ensures Score(f, msgLower) ==
      2 * |Positions(f.keywords, InMessage(msgLower))|
      + |Positions(QuestionWords(f), EarnsPoint(Split(msgLower, ' ')))|
  {
    CountIsCardinality(f.keywords, InMessage(msgLower));
    CountIsCardinality(QuestionWords(f), EarnsPoint(Split(msgLower, ' ')));
  }

  /** An entry scores nothing exactly when none of its keywords occurs in the
      message and none of its question words earns a point. */
  lemma ScoreZeroIff(f: FaqEntry, msgLower: string)
    ensures Score(f, msgLower) == 0 <==>
      (forall k :: 0 <= k < |f.keywords| ==> !Includes(msgLower, Lower(f.keywords[k])))
      && (forall j :: 0 <= j < |QuestionWords(f)| ==> !WordHit(QuestionWords(f)[j], Split(msgLower, ' ')))
  {
    CountZeroIff(f.keywords, InMessage(msgLower));
    CountZeroIff(QuestionWords(f), EarnsPoint(Split(msgLower, ' ')));
  }

  /** The number of question words longer than three characters. */
  function LongWords(questionWords: seq<string>): nat {
    Count(questionWords, (w: string) => |w| > 3)
  }

  /** When the message splits into an empty word (two spaces in a row, a
      leading or a trailing space), every long question word earns a point,
      because every string includes the empty string. */
  lemma EmptyUserWordMatchesEveryLongWord(questionWords: seq<string>, userWords: seq<string>)
    requires "" in userWords
    ensures QuestionHits(questionWords, userWords) == LongWords(questionWords)
  {
    var j :| 0 <= j < |userWords| && userWords[j] == "";
    forall k | 0 <= k < |questionWords|
      ensures WordHit(questionWords[k], userWords) == (|questionWords[k]| > 3)
    {
      IncludesEmpty(questionWords[k]);
    }
    CountAgrees(questionWords, EarnsPoint(userWords), (w: string) => |w| > 3);
  }

  /** So a message with a doubled space scores at least one point for every
      long word of every question. */
  lemma DoubledSpaceScoresEveryLongWord(f: FaqEntry, msgLower: string, i: nat)
    requires i + 1 < |msgLower| && msgLower[i] == ' ' && msgLower[i + 1] == ' '
    ensures Score(f, msgLower) >= LongWords(QuestionWords(f))
  {
    DoubledSeparatorGivesEmptyPiece(msgLower, ' ', i);
    var k :| 0 < k < |Split(msgLower, ' ')| && Split(msgLower, ' ')[k] == "";
    EmptyUserWordMatchesEveryLongWord(QuestionWords(f), Split(msgLower, ' '));
  }

  /** The scoring loops of findBestMatch for one entry. */
  method ScoreEntry(f: FaqEntry, msgLower: string) returns (score: nat)
    ensures score == Score(f, msgLower)
  {
    ghost var hasKeyword := InMessage(msgLower);
    score := 0;
    for i := 0 to |f.keywords|
      invariant score == 2 * Count(f.keywords[..i], hasKeyword)
    {
      CountStep(f.keywords, hasKeyword, i);
      assert hasKeyword(f.keywords[i]) == Includes(msgLower, Lower(f.keywords[i]));
      if Includes(msgLower, Lower(f.keywords[i])) {
        score := score + 2;
      }
    }
    assert f.keywords[..|f.keywords|] == f.keywords;
    var questionWords := Split(Lower(f.question), ' ');
    var userWords := Split(msgLower, ' ');
    ghost var keywordScore := score;
    ghost var earnsPoint := EarnsPoint(userWords);
    for j := 0 to |questionWords|
      invariant score == keywordScore + Count(questionWords[..j], earnsPoint)
    {
      CountStep(questionWords, earnsPoint, j);
      var word := questionWords[j];
      assert earnsPoint(word) == (|word| > 3 && Overlaps(word, userWords));
      if |word| > 3 && Overlaps(word, userWords) {
        score := score + 1;
      }
    }
    assert questionWords[..|questionWords|] == questionWords;
  }

  // ---------------------------------------------------------------------------
  // Picking the best entry

  /** The scores of the entries, in order. */
  function Scores(faqs: seq<FaqEntry>, msgLower: string): (r: seq<nat>)
    ensures |r| == |faqs|
    ensures forall k :: 0 <= k < |faqs| ==> r[k] == Score(faqs[k], msgLower)
  {
    seq(|faqs|, k requires 0 <= k < |faqs| => Score(faqs[k], msgLower))
  }

  /** The state of findBestMatch's loop after the given scores: the position
      of the best entry so far and the highest score so far. */
  function Scan(scores: seq<nat>): (r: (Option<nat>, nat))
    ensures r.0.Some? ==> r.0.value < |scores|
  {
    if |scores| == 0 then (None, 0)
    else
      var prev := Scan(scores[..|scores| - 1]);
      var score := scores[|scores| - 1];
      if score > prev.1 && score > 0 then (Some(|scores| - 1), score) else prev
  }

  /** One more iteration of the loop. */
  lemma ScanStep(scores: seq<nat>, i: nat)
    requires i < |scores|
    ensures Scan(scores[..i + 1]) ==
      if scores[i] > Scan(scores[..i]).1 && scores[i] > 0 then (Some(i), scores[i]) else Scan(scores[..i])
  {
    assert scores[..i + 1][..i] == scores[..i];
  }

  /** Position `i` holds the first highest score, and that score is positive. */
  predicate FirstBest(scores: seq<nat>, i: int) {
    0 <= i < |scores| && scores[i] > 0
    && (forall k :: 0 <= k < |scores| ==> scores[k] <= scores[i])
    && (forall k :: 0 <= k < i ==> scores[k] < scores[i])
  }

  lemma {:induction false} ScanSpec(scores: seq<nat>)
    ensures forall k :: 0 <= k < |scores| ==> scores[k] <= Scan(scores).1
    ensures Scan(scores).0.None? <==> Scan(scores).1 == 0
    ensures Scan(scores).0.Some? ==> FirstBest(scores, Scan(scores).0.value)
    ensures Scan(scores).0.Some? ==> scores[Scan(scores).0.value] == Scan(scores).1
  {
    if |scores| > 0 {
      var init := scores[..|scores| - 1];
      ScanSpec(init);
      assert forall k :: 0 <= k < |init| ==> init[k] == scores[k];
      var last := scores[|scores| - 1];
      if !(last > Scan(init).1 && last > 0) {
        assert last <= Scan(init).1;
        if Scan(init).0.Some? {
          assert FirstBest(init, Scan(init).0.value);
        }
      }
    }
  }

  /** At most one position is the first best one. */
  lemma FirstBestUnique(scores: seq<nat>, i: int, j: int)
    requires FirstBest(scores, i) && FirstBest(scores, j)
    ensures i == j
  {
  }

  /** The loop's result: no position exactly when every score is 0, otherwise
      the first position with the highest score (the update test is a strict
      `>`, so a later tie does not win). */
  lemma ScanResult(scores: seq<nat>)
    ensures Scan(scores).0.None? <==> forall k :: 0 <= k < |scores| ==> scores[k] == 0
    ensures forall i :: Scan(scores).0 == Some(i) <==> FirstBest(scores, i)
  {
    ScanSpec(scores);
    forall i | FirstBest(scores, i)
      ensures Scan(scores).0 == Some(i)
    {
      if Scan(scores).0.Some? {
        FirstBestUnique(scores, i, Scan(scores).0.value);
      }
    }
  }

  /** findBestMatch over an already ordered candidate list. */
  function BestMatch(faqs: seq<FaqEntry>, msgLower: string): Option<FaqEntry> {
    match Scan(Scores(faqs, msgLower)).0
    case None => None
    case Some(i) => Some(faqs[i])
  }

  // ---------------------------------------------------------------------------
  // The candidates: FAQ.find({isActive: true}).sort({priority: -1})

  /** The active entries, in catalogue order. */
  function ActiveOnly(faqs: seq<FaqEntry>): (r: seq<FaqEntry>)
    ensures |r| <= |faqs|
    ensures forall k :: 0 <= k < |r| ==> r[k].isActive
  {
    if |faqs| == 0 then []
    else if faqs[0].isActive then [faqs[0]] + ActiveOnly(faqs[1..])
    else ActiveOnly(faqs[1..])
  }

  /** An entry is a candidate exactly when it is in the catalogue and active,
      and it occurs as often as it does in the catalogue. */
  lemma {:induction false} ActiveOnlyMembers(faqs: seq<FaqEntry>, x: FaqEntry)
    ensures x in ActiveOnly(faqs) <==> x in faqs && x.isActive
    ensures x.isActive ==> multiset(ActiveOnly(faqs))[x] == multiset(faqs)[x]
  {
    if |faqs| > 0 {
      ActiveOnlyMembers(faqs[1..], x);
      assert faqs == [faqs[0]] + faqs[1..];
    }
  }

  /** A catalogue whose entries are all active is kept as it is. */
  lemma {:induction false} ActiveOnlyAllActive(faqs: seq<FaqEntry>)
    requires forall k :: 0 <= k < |faqs| ==> faqs[k].isActive
    ensures ActiveOnly(faqs) == faqs
  {
    if |faqs| > 0 {
      ActiveOnlyAllActive(faqs[1..]);
    }
  }

  function Priority(f: FaqEntry): int {
    f.priority
  }

  function Candidates(faqs: seq<FaqEntry>): seq<FaqEntry> {
    SortDesc(ActiveOnly(faqs), Priority)
  }

  /** The candidates are the active entries, each as often as stored, in order
      of non-increasing priority. */
  lemma CandidatesSpec(faqs: seq<FaqEntry>)
    ensures SortedDesc(Candidates(faqs), Priority)
    ensures multiset(Candidates(faqs)) == multiset(ActiveOnly(faqs))
    ensures forall x :: x in Candidates(faqs) <==> x in faqs && x.isActive
  {
    SortDescSorted(ActiveOnly(faqs), Priority);
    SortDescPermutes(ActiveOnly(faqs), Priority);
    forall x
      ensures x in Candidates(faqs) <==> x in faqs && x.isActive
    {
      ActiveOnlyMembers(faqs, x);
      assert x in Candidates(faqs) <==> x in multiset(Candidates(faqs));
    }
  }

  /** When every entry is active and all priorities are equal, the candidates
      come in catalogue order. */
  lemma CandidatesKeepOrder(faqs: seq<FaqEntry>, p: int)
    requires forall k :: 0 <= k < |faqs| ==> faqs[k].isActive && faqs[k].priority == p
    ensures Candidates(faqs) == faqs
  {
    ActiveOnlyAllActive(faqs);
    SortDescOfSorted(faqs, Priority);
  }

  /** findBestMatch: the best candidate for the lower-cased message, or None. */
  function FindBestMatch(faqs: seq<FaqEntry>, userMessage: string): Option<FaqEntry> {
    BestMatch(Candidates(faqs), Lower(userMessage))
  }

  /** BestMatch over any ordered list picks the first entry with the highest
      positive score, and nothing when no entry scores. */
  lemma BestMatchFirst(c: seq<FaqEntry>, m: string)
    ensures BestMatch(c, m).None? <==> forall k :: 0 <= k < |c| ==> Scores(c, m)[k] == 0
    ensures BestMatch(c, m).Some? ==>
      exists i :: 0 <= i < |c| && BestMatch(c, m).value == c[i] && FirstBest(Scores(c, m), i)
  {
    var scores := Scores(c, m);
    ScanResult(scores);
    if Scan(scores).0.Some? {
      var i := Scan(scores).0.value;
      assert FirstBest(scores, i);
    }
  }

  /** BestMatch over any ordered list finds nothing exactly when every entry
      scores 0. */
  lemma BestMatchNoneIff(c: seq<FaqEntry>, m: string)
    ensures BestMatch(c, m).None? <==> forall k :: 0 <= k < |c| ==> Score(c[k], m) == 0
  {
    BestMatchFirst(c, m);
  }

  /** A match over any ordered list is an entry of the list with a positive
      score that no entry beats, and it comes before every other entry with
      the same score. */
  lemma BestMatchSpec(c: seq<FaqEntry>, m: string)
    ensures BestMatch(c, m).Some? ==>
      BestMatch(c, m).value in c && Score(BestMatch(c, m).value, m) > 0
      && forall k :: 0 <= k < |c| ==> Score(c[k], m) <= Score(BestMatch(c, m).value, m)
    ensures BestMatch(c, m).Some? ==>
      exists i :: 0 <= i < |c| && BestMatch(c, m).value == c[i] && FirstBest(Scores(c, m), i)
  {
    BestMatchFirst(c, m);
  }

  /** `best` is an active catalogue entry that no active entry outscores. */
  predicate Unbeaten(faqs: seq<FaqEntry>, msgLower: string, best: FaqEntry) {
    best in faqs && best.isActive
    && forall x :: x in faqs && x.isActive ==> Score(x, msgLower) <= Score(best, msgLower)
  }

  /** What findBestMatch returns is an active catalogue entry with a positive
      score that no other active entry beats; None means no active entry
      scores anything. */
  lemma FindBestMatchSpec(faqs: seq<FaqEntry>, userMessage: string)
    ensures FindBestMatch(faqs, userMessage).None? <==>
      forall x :: x in faqs && x.isActive ==> Score(x, Lower(userMessage)) == 0
    ensures FindBestMatch(faqs, userMessage).Some? ==>
      var best := FindBestMatch(faqs, userMessage).value;
      Unbeaten(faqs, Lower(userMessage), best) && Score(best, Lower(userMessage)) > 0
    ensures FindBestMatch(faqs, userMessage).Some? ==>
      var c := Candidates(faqs);
      exists i :: 0 <= i < |c| && FindBestMatch(faqs, userMessage).value == c[i]
        && FirstBest(Scores(c, Lower(userMessage)), i)
  {
    var c := Candidates(faqs);
    var m := Lower(userMessage);
    CandidatesSpec(faqs);
    BestMatchNoneIff(c, m);
    BestMatchSpec(c, m);
    forall x | x in faqs && x.isActive
      ensures exists k :: 0 <= k < |c| && c[k] == x
    {
      assert x in c;
    }
  }

  /** What findBestMatch returns comes from the catalogue. */
  lemma FindBestMatchIsStored(faqs: seq<FaqEntry>, userMessage: string)
    ensures FindBestMatch(faqs, userMessage).Some? ==> FindBestMatch(faqs, userMessage).value in faqs
  {
    FindBestMatchSpec(faqs, userMessage);
  }

  /** The two outcomes of findBestMatch, as a caller distinguishes them. */
  lemma FindBestMatchCases(faqs: seq<FaqEntry>, userMessage: string)
    ensures (forall x :: x in faqs && x.isActive ==> Score(x, Lower(userMessage)) == 0) ==>
      FindBestMatch(faqs, userMessage).None?
    ensures (exists x :: x in faqs && x.isActive && Score(x, Lower(userMessage)) > 0) ==>
      FindBestMatch(faqs, userMessage).Some?
      && Unbeaten(faqs, Lower(userMessage), FindBestMatch(faqs, userMessage).value)
  {
    FindBestMatchSpec(faqs, userMessage);
  }
}
