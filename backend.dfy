/**
  The search service (backend/app.py) without its foreign libraries: the
  flattening of the FAQ file, the columns handed to the vector store, the
  formatting of the store's answer and its ordering by similarity.
 */
module Backend {
  import opened Wrappers

  // ---------------------------------------------------------------------
  // Flattening faqs.json

  datatype FaqItem = FaqItem(question: string, answer: string)

  /**
    The parsed FAQ file: its `category -> [items]` entries in file order,
    the order in which a Python dict yields them.
   */
  type FaqData = seq<(string, seq<FaqItem>)>

  /** One element of `all_faqs`. */
  datatype Faq = Faq(category: string, question: string, answer: string)

  function Record(category: string, item: FaqItem): Faq {
    Faq(category, item.question, item.answer)
  }

  /** The records one category contributes, in item order. */
  function CategoryRecords(category: string, items: seq<FaqItem>): (rs: seq<Faq>)
    ensures |rs| == |items|
    ensures forall j :: 0 <= j < |items| ==> rs[j] == Record(category, items[j])
  {
    if items == [] then []
    else CategoryRecords(category, items[..|items| - 1]) + [Record(category, items[|items| - 1])]
  }

  /** The flat list, categories in file order, items in list order. */
  function Flattened(data: FaqData): seq<Faq> {
    if data == [] then []
    else Flattened(data[..|data| - 1]) + CategoryRecords(data[|data| - 1].0, data[|data| - 1].1)
  }

  /** The sum of the lengths of the per-category lists. */
  function TotalItems(data: FaqData): nat {
    if data == [] then 0 else TotalItems(data[..|data| - 1]) + |data[|data| - 1].1|
  }

  /** The nested loop of app.py that builds `all_faqs`. */
  method FlattenFaqs(data: FaqData) returns (all: seq<Faq>)
    ensures all == Flattened(data)
  {
    all := [];
    var c := 0;
    while c < |data|
      invariant 0 <= c <= |data|
      invariant all == Flattened(data[..c])
    {
      var category := data[c].0;
      var questions := data[c].1;
      var j := 0;
      while j < |questions|
        invariant 0 <= j <= |questions|
        invariant all == Flattened(data[..c]) + CategoryRecords(category, questions[..j])
      {
        assert questions[..j + 1][..j] == questions[..j];
        all := all + [Faq(category, questions[j].question, questions[j].answer)];
        j := j + 1;
      }
      assert questions[..j] == questions;
      assert data[..c + 1][..c] == data[..c];
      c := c + 1;
    }
    assert data[..c] == data;
  }

  /** There is one record per (category, item) pair. */
  lemma {:induction false} FlattenedLength(data: FaqData)
    ensures |Flattened(data)| == TotalItems(data)
  {
    if data != [] {
      FlattenedLength(data[..|data| - 1]);
    }
  }

  /**
    Item `j` of category `c` sits right after the items of the categories
    before it, and keeps its own category, question and answer.
   */
  lemma {:induction false} FlattenedAt(data: FaqData, c: nat, j: nat)
    requires c < |data| && j < |data[c].1|
    ensures TotalItems(data[..c]) + j < |Flattened(data)|
    ensures Flattened(data)[TotalItems(data[..c]) + j] == Record(data[c].0, data[c].1[j])
  {
    var n := |data|;
    var init := data[..n - 1];
    FlattenedLength(data);
    FlattenedLength(init);
    if c < n - 1 {
      assert init[..c] == data[..c];
      assert init[c] == data[c];
      FlattenedAt(init, c, j);
    } else {
      assert init == data[..c];
    }
  }

  // ---------------------------------------------------------------------
  // The collection's columns

  /** The decimal digits, `str` of a digit. */
  const Digits: string := "0123456789"

  predicate IsDigit(ch: char) {
    '0' <= ch <= '9'
  }

  /** Python's `str(n)` for a natural number: its decimal numeral. */
  function NatToString(n: nat): (s: string)
    ensures |s| > 0
    ensures forall k :: 0 <= k < |s| ==> IsDigit(s[k])
    ensures |s| > 1 ==> s[0] != '0'
  {
    if n < 10 then [Digits[n]] else NatToString(n / 10) + [Digits[n % 10]]
  }

  function DigitValue(ch: char): nat {
    if IsDigit(ch) then ch as int - '0' as int else 0
  }

  /** The value of a decimal numeral, most significant digit first. */
  function ParseDecimal(s: string): nat {
    if s == [] then 0 else ParseDecimal(s[..|s| - 1]) * 10 + DigitValue(s[|s| - 1])
  }

  /** A numeral reads back as the number it was written from. */
  lemma {:induction false} ParseNatToString(n: nat)
    ensures ParseDecimal(NatToString(n)) == n
  {
    if n >= 10 {
      var s := NatToString(n / 10);
      ParseNatToString(n / 10);
      assert (s + [Digits[n % 10]])[..|s|] == s;
    }
  }

  /** Distinct positions get distinct ids. */
  lemma NatToStringInjective(i: nat, j: nat)
    requires i != j
    ensures NatToString(i) != NatToString(j)
  {
    ParseNatToString(i);
    ParseNatToString(j);
  }

  datatype Metadata = Metadata(category: string, answer: string)

  /** The three lists passed to `collection.add`. */
  datatype Columns = Columns(ids: seq<string>, documents: seq<string>, metadatas: seq<Metadata>)

  /** The FAQ that position `i` of the three columns describes. */
  function Reassemble(cols: Columns, i: nat): Faq
    requires i < |cols.documents| && i < |cols.metadatas|
  {
    Faq(cols.metadatas[i].category, cols.documents[i], cols.metadatas[i].answer)
  }

  /**
    The comprehensions of app.py: the questions as documents, category and
    answer as metadata, `str(i)` as ids. The three columns are as long as
    the flat list, and position `i` of all three describes FAQ `i`.
   */
  function CollectionColumns(faqs: seq<Faq>): (cols: Columns)
    ensures |cols.ids| == |faqs| && |cols.documents| == |faqs| && |cols.metadatas| == |faqs|
    ensures forall i :: 0 <= i < |faqs| ==>
      cols.ids[i] == NatToString(i) && Reassemble(cols, i) == faqs[i]
  {
    Columns(
      seq(|faqs|, i requires 0 <= i < |faqs| => NatToString(i)),
      seq(|faqs|, i requires 0 <= i < |faqs| => faqs[i].question),
      seq(|faqs|, i requires 0 <= i < |faqs| => Metadata(faqs[i].category, faqs[i].answer)))
  }

  /** No two FAQs share an id, and every id reads back as its position. */
  lemma IdsDistinct(faqs: seq<Faq>, i: nat, j: nat)
    requires i < |faqs| && j < |faqs|
    ensures ParseDecimal(CollectionColumns(faqs).ids[i]) == i
    ensures i != j ==> CollectionColumns(faqs).ids[i] != CollectionColumns(faqs).ids[j]
  {
    ParseNatToString(i);
    if i != j {
      NatToStringInjective(i, j);
    }
  }

  // ---------------------------------------------------------------------
  // Formatting the store's answer

  /**
    The first row of each column of `collection.query(...)`. Distances are
    kept as integers; similarity is `1 - distance` on them.
   */
  datatype QueryResult = QueryResult(
    ids: seq<string>, documents: seq<string>, metadatas: seq<Metadata>, distances: seq<int>)

  /** One element of `formatted_results`. */
  datatype Formatted = Formatted(category: string, question: string, answer: string, similarity: int)

  /** The exception the formatting loop raises on a column shorter than `ids`. */
  datatype SearchError = IndexError

  /** Every column has an entry for every returned id. */
  predicate Complete(r: QueryResult) {
    |r.ids| <= |r.documents| && |r.ids| <= |r.metadatas| && |r.ids| <= |r.distances|
  }

  /** The record the loop builds for row `i`. */
  function Row(r: QueryResult, i: nat): Formatted
    requires i < |r.documents| && i < |r.metadatas| && i < |r.distances|
  {
    Formatted(r.metadatas[i].category, r.documents[i], r.metadatas[i].answer, 1 - r.distances[i])
  }

  function Rows(r: QueryResult): seq<Formatted>
    requires Complete(r)
  {
    seq(|r.ids|, i requires 0 <= i < |r.ids| => Row(r, i))
  }

  /**
    The formatting loop: one record per returned id, with category and
    answer from the metadata and question from the document of its row;
    it raises IndexError when a column runs out first.
   */
  method FormatResults(r: QueryResult) returns (out: Result<seq<Formatted>, SearchError>)
    ensures out.Success? <==> Complete(r)
    ensures out.Success? ==> |out.value| == |r.ids|
    ensures out.Success? ==> forall i :: 0 <= i < |r.ids| ==>
      && out.value[i].category == r.metadatas[i].category
      && out.value[i].question == r.documents[i]
      && out.value[i].answer == r.metadatas[i].answer
      && out.value[i].similarity == 1 - r.distances[i]
  {
    var formatted: seq<Formatted> := [];
    var i := 0;
    while i < |r.ids|
      invariant 0 <= i <= |r.ids|
      invariant i <= |r.documents| && i <= |r.metadatas| && i <= |r.distances|
      invariant |formatted| == i
      invariant forall k :: 0 <= k < i ==> formatted[k] == Row(r, k)
    {
      if i >= |r.metadatas| || i >= |r.documents| || i >= |r.distances| {
        return Failure(IndexError);
      }
      formatted := formatted + [Row(r, i)];
      i := i + 1;
    }
    return Success(formatted);
  }

  /**
    A row of the store's answer drawn from the collection built from
    `faqs`: row `i` is the collection's entry `positions[i]`, its id, its
    document and its metadata.
   */
  ghost predicate RowsOf(r: QueryResult, faqs: seq<Faq>, positions: seq<nat>) {
    var cols := CollectionColumns(faqs);
    && Complete(r)
    && |positions| == |r.ids|
    && forall i :: 0 <= i < |positions| ==>
         && positions[i] < |faqs|
         && r.ids[i] == cols.ids[positions[i]]
         && r.documents[i] == cols.documents[positions[i]]
         && r.metadatas[i] == cols.metadatas[positions[i]]
  }

  /** Each formatted record is exactly the FAQ its returned id names. */
  lemma RowIsFaqOfItsId(faqs: seq<Faq>, r: QueryResult, positions: seq<nat>, i: nat)
    requires RowsOf(r, faqs, positions) && i < |r.ids|
    ensures ParseDecimal(r.ids[i]) < |faqs|
    ensures var row := Row(r, i);
      Faq(row.category, row.question, row.answer) == faqs[ParseDecimal(r.ids[i])]
  {
    IdsDistinct(faqs, positions[i], positions[i]);
  }

  // ---------------------------------------------------------------------
  // Ordering by similarity: `sort(key=similarity, reverse=True)`

  predicate NonIncreasing(s: seq<Formatted>) {
    forall i, j :: 0 <= i < j < |s| ==> s[i].similarity >= s[j].similarity
  }

  /** The records of `s` whose similarity is `k`, in their order in `s`. */
  function WithSimilarity(s: seq<Formatted>, k: int): seq<Formatted> {
    if s == [] then []
    else (if s[0].similarity == k then [s[0]] else []) + WithSimilarity(s[1..], k)
  }

  /** A similarity group holds only records of the list with that similarity. */
  lemma {:induction false} GroupMember(s: seq<Formatted>, k: int, x: Formatted)
    requires x in WithSimilarity(s, k)
    ensures x in s && x.similarity == k
  {
    var rest := WithSimilarity(s[1..], k);
    if !(s[0].similarity == k && x == s[0]) {
      assert x in rest;
      GroupMember(s[1..], k, x);
    }
  }

  /** A record at least as similar as the head of an ordered list may go in front. */
  lemma ConsNonIncreasing(h: Formatted, t: seq<Formatted>)
    requires NonIncreasing(t) && (t != [] ==> h.similarity >= t[0].similarity)
    ensures NonIncreasing([h] + t)
  {
  }

  /** Inserts `x` before the first record that is not more similar than it. */
  function InsertDesc(x: Formatted, s: seq<Formatted>): (r: seq<Formatted>)
    requires NonIncreasing(s)
    ensures |r| == |s| + 1 && multiset(r) == multiset(s) + multiset{x}
    ensures r[0] == x || (s != [] && r[0] == s[0])
    ensures NonIncreasing(r)
  {
    if s == [] || s[0].similarity <= x.similarity then
      ConsNonIncreasing(x, s);
      [x] + s
    else
      var t := s[1..];
      assert s == [s[0]] + t;
      assert NonIncreasing(t);
      var r' := InsertDesc(x, t);
      ConsNonIncreasing(s[0], r');
      [s[0]] + r'
  }

  /** `x` goes in front of the records that are as similar as it is. */
  lemma {:induction false} InsertDescKeepsTies(x: Formatted, s: seq<Formatted>, k: int)
    requires NonIncreasing(s)
    ensures WithSimilarity(InsertDesc(x, s), k) ==
      (if x.similarity == k then [x] else []) + WithSimilarity(s, k)
  {
    var r := InsertDesc(x, s);
    if s == [] || s[0].similarity <= x.similarity {
      assert r[0] == x && r[1..] == s;
    } else {
      var t := s[1..];
      assert NonIncreasing(t);
      var g := if s[0].similarity == k then [s[0]] else [];
      assert r[0] == s[0] && r[1..] == InsertDesc(x, t);
      assert WithSimilarity(r, k) == g + WithSimilarity(InsertDesc(x, t), k);
      InsertDescKeepsTies(x, t, k);
      assert WithSimilarity(s, k) == g + WithSimilarity(t, k);
    }
  }

  /**
    Python's stable descending sort by similarity, as an insertion sort:
    the result is ordered by non-increasing similarity, is a permutation of
    the input, and records of equal similarity keep their relative order.
   */
  function SortBySimilarity(xs: seq<Formatted>): (ys: seq<Formatted>)
    ensures |ys| == |xs| && multiset(ys) == multiset(xs)
    ensures NonIncreasing(ys)
  {
    if xs == [] then []
    else
      assert xs == [xs[0]] + xs[1..];
      InsertDesc(xs[0], SortBySimilarity(xs[1..]))
  }

  lemma {:induction false} SortIsStable(xs: seq<Formatted>, k: int)
    ensures WithSimilarity(SortBySimilarity(xs), k) == WithSimilarity(xs, k)
  {
    if xs != [] {
      SortIsStable(xs[1..], k);
      InsertDescKeepsTies(xs[0], SortBySimilarity(xs[1..]), k);
    }
  }

  lemma HeadIsMostSimilar(s: seq<Formatted>, x: Formatted)
    requires NonIncreasing(s) && x in s
    ensures s[0].similarity >= x.similarity
  {
  }

  lemma NonEmptyHasGroup(s: seq<Formatted>)
    requires s != []
    ensures WithSimilarity(s, s[0].similarity) == [s[0]] + WithSimilarity(s[1..], s[0].similarity)
  {
  }

  /**
    Order and ties determine a stable descending sort: two lists ordered by
    non-increasing similarity that agree on the order of the records of
    every similarity are equal.
   */
  lemma {:induction false} StableOrderUnique(a: seq<Formatted>, b: seq<Formatted>)
    requires NonIncreasing(a) && NonIncreasing(b)
    requires forall k :: WithSimilarity(a, k) == WithSimilarity(b, k)
    ensures a == b
    decreases |a|
  {
    if a == [] {
      if b != [] {
        NonEmptyHasGroup(b);
      }
    } else if b == [] {
      NonEmptyHasGroup(a);
    } else {
      var ka, kb := a[0].similarity, b[0].similarity;
      NonEmptyHasGroup(a);
      NonEmptyHasGroup(b);
      GroupMember(b, ka, WithSimilarity(b, ka)[0]);
      GroupMember(a, kb, WithSimilarity(a, kb)[0]);
      HeadIsMostSimilar(b, WithSimilarity(b, ka)[0]);
      HeadIsMostSimilar(a, WithSimilarity(a, kb)[0]);
      assert ka == kb;
      assert a[0] == b[0];
      forall k
        ensures WithSimilarity(a[1..], k) == WithSimilarity(b[1..], k)
      {
        var g := if a[0].similarity == k then [a[0]] else [];
        assert WithSimilarity(a, k) == g + WithSimilarity(a[1..], k);
        assert WithSimilarity(b, k) == g + WithSimilarity(b[1..], k);
        assert WithSimilarity(a[1..], k) == WithSimilarity(a, k)[|g|..];
        assert WithSimilarity(b[1..], k) == WithSimilarity(b, k)[|g|..];
      }
      StableOrderUnique(a[1..], b[1..]);
      assert a == [a[0]] + a[1..] && b == [b[0]] + b[1..];
    }
  }

  /**
    `SortBySimilarity` is the one stable descending sort: any list ordered by
    non-increasing similarity that keeps the input order among equal
    similarities is exactly its result.
   */
  lemma SortIsTheStableSort(xs: seq<Formatted>, ys: seq<Formatted>)
    requires NonIncreasing(ys)
    requires forall k :: WithSimilarity(ys, k) == WithSimilarity(xs, k)
    ensures ys == SortBySimilarity(xs)
  {
    forall k
      ensures WithSimilarity(ys, k) == WithSimilarity(SortBySimilarity(xs), k)
    {
      SortIsStable(xs, k);
    }
    StableOrderUnique(ys, SortBySimilarity(xs));
  }

  /** The number of rows asked of the store. */
  const NResults: nat := 5

  /**
    `search_faqs` after the store has answered: the formatted rows ordered by
    non-increasing similarity, a stable permutation of the rows; no more
    than the store returned, so at most `NResults` when the store keeps to
    `n_results`.
   */
  method SearchFaqs(r: QueryResult) returns (out: Result<seq<Formatted>, SearchError>)
    ensures out.Success? <==> Complete(r)
    ensures out.Success? ==> out.value == SortBySimilarity(Rows(r))
    ensures out.Success? ==> |out.value| == |r.ids| && NonIncreasing(out.value)
    ensures out.Success? ==> multiset(out.value) == multiset(Rows(r))
    ensures out.Success? && |r.ids| <= NResults ==> |out.value| <= NResults
  {
    var formatted := FormatResults(r);
    if formatted.Failure? {
      return formatted;
    }
    var rows := formatted.value;
    assert rows == Rows(r);
    return Success(SortBySimilarity(rows));
  }
}
