/**
  The search response as the chat consumes it: the service's JSON records
  are read by the dialog field by field (answer, category, question), so the
  answer it shows is made of the most similar records the store returned.
 */
module Pipeline {
  import opened Messages
  import Backend
  import Chat

  /** The fields of a formatted record the dialog reads. */
  function AsMatch(f: Backend.Formatted): Match {
    Match(f.answer, f.category, f.question)
  }

  function AsMatches(fs: seq<Backend.Formatted>): (ms: seq<Match>)
    ensures |ms| == |fs| && forall i :: 0 <= i < |fs| ==> ms[i] == AsMatch(fs[i])
  {
    seq(|fs|, i requires 0 <= i < |fs| => AsMatch(fs[i]))
  }

  /**
    For a successful response with records, the answer shows the first
    `min(3, n)` of them, in the order of the response.
   */
  lemma ShownArePrefix(sorted: seq<Backend.Formatted>, status: int)
    requires Chat.IsOk(status) && sorted != []
    ensures var a := Chat.AiReply(Chat.Response(status, AsMatches(sorted))).content;
      && a.Answer? && |a.matches| == Chat.Min(Chat.MaxShown, |sorted|)
      && forall i :: 0 <= i < |a.matches| ==> a.matches[i] == AsMatch(sorted[i])
  {
  }

  /** In a list ordered by non-increasing similarity, a prefix holds the most similar records. */
  lemma PrefixIsMostSimilar(s: seq<Backend.Formatted>, k: nat, i: nat, x: Backend.Formatted)
    requires Backend.NonIncreasing(s) && i < k <= |s|
    requires x in multiset(s) - multiset(s[..k])
    ensures s[i].similarity >= x.similarity
  {
    assert s == s[..k] + s[k..];
    assert x in multiset(s[k..]);
    assert x in s[k..];
    var j :| 0 <= j < |s| - k && s[k..][j] == x;
    assert s[k + j] == x;
  }

  /**
    Each shown record of the sorted response is at least as similar as every
    returned record that is not shown.
   */
  lemma ShownAreMostSimilar(rows: seq<Backend.Formatted>, x: Backend.Formatted, i: nat)
    requires i < Chat.Min(Chat.MaxShown, |rows|)
    requires x in multiset(rows) - multiset(Backend.SortBySimilarity(rows)[..Chat.Min(Chat.MaxShown, |rows|)])
    ensures Backend.SortBySimilarity(rows)[i].similarity >= x.similarity
  {
    var sorted := Backend.SortBySimilarity(rows);
    PrefixIsMostSimilar(sorted, Chat.Min(Chat.MaxShown, |rows|), i, x);
  }
}
