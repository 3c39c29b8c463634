/** Parsed git commits and their small helpers (hindsight-git, commit.rs). */
module GitCommit {
  datatype Commit = Commit(
    sha: string,
    message: string,
    author: string,
    authorEmail: string,
    timestamp: int,
    parents: seq<string>)
  {
    /** The short sha: the first seven characters, or fewer. */
    function ShortSha(): (r: string)
      ensures r <= sha
      ensures |r| == if |sha| < 7 then |sha| else 7
    {
      if |sha| < 7 then sha else sha[..7]
    }

    predicate IsMerge() { |parents| > 1 }

    predicate IsRoot() { |parents| == 0 }

    /** The first line of the message (`lines().next()`): text up to the
        first '\n', without the '\r' of a "\r\n" ending; "" when empty. */
    function Subject(): (r: string)
      ensures r <= message && '\n' !in r
      ensures '\n' !in message ==> r == message
      ensures '\n' in message ==>
        (message[|r|] == '\r' && message[|r| + 1] == '\n') ||
        (message[|r|] == '\n' && (|r| == 0 || message[|r| - 1] != '\r'))
    {
      LinePrefix(message, 0)
    }
  }

  predicate IsHexDigit(c: char) {
    '0' <= c <= '9' || 'a' <= c <= 'f' || 'A' <= c <= 'F'
  }

  /** A full sha: 40 ASCII hex digits of either case. */
  predicate IsValidSha(sha: string) {
    |sha| == 40 && forall i :: 0 <= i < |sha| ==> IsHexDigit(sha[i])
  }

  /** Scan from `k` for the first '\n' and cut there. */
  function LinePrefix(m: string, k: nat): (r: string)
    requires k <= |m| && '\n' !in m[..k]
    ensures k <= |r| + 1 && r <= m && '\n' !in r
    ensures '\n' !in m ==> r == m
    ensures '\n' in m ==>
      (m[|r|] == '\r' && m[|r| + 1] == '\n') || (m[|r|] == '\n' && (|r| == 0 || m[|r| - 1] != '\r'))
    decreases |m| - k
  {
    if k == |m| then m
    else if m[k] == '\n' then
      if k > 0 && m[k - 1] == '\r' then m[..k - 1] else m[..k]
    else
      assert m[..k + 1] == m[..k] + [m[k]];
      LinePrefix(m, k + 1)
  }

  /** `is_merge` and `is_root` never hold together; a commit with one
      parent is neither. */
  lemma MergeRootExclusive(c: Commit)
    ensures !(c.IsMerge() && c.IsRoot())
    ensures c.IsMerge() <==> |c.parents| > 1
    ensures c.IsRoot() <==> c.parents == []
    ensures |c.parents| == 1 ==> !c.IsMerge() && !c.IsRoot()
  {
  }

  /** An empty message has an empty subject. */
  lemma EmptySubject(c: Commit)
    requires c.message == ""
    ensures c.Subject() == ""
  {
  }
}
