/**
  The lesson metadata record decoded from each lesson's `codelab.json`,
  and the rewrite of its URL so that it is valid from the site root.
 */
module Learnings {
  import opened Wrappers

  /** Go's `int64`. */
  newtype int64 = x: int | -0x8000_0000_0000_0000 <= x < 0x8000_0000_0000_0000

  /**
    One lesson's metadata. `updated` stands for Go's `time.Time` as an
    instant; nothing in the model reads it.
   */
  datatype Metadata = Metadata(
    environment: string,
    updated: int,
    id: string,
    duration: int64,
    title: string,
    author: string,
    summary: string,
    theme: string,
    category: seq<string>,
    tags: seq<string>,
    feedback: string,
    url: string)

  /** The folder under the site root that holds every lesson. */
  const LearningsPrefix: string := "/learnings/"

  /** The record as the landing page links it: its URL under `LearningsPrefix`. */
  function Rewrite(m: Metadata): Metadata {
    m.(url := LearningsPrefix + m.url)
  }

  /** Recovers the decoded record from a landing-page record, if its URL carries the prefix. */
  function Unrewrite(m: Metadata): Option<Metadata> {
    if |m.url| >= |LearningsPrefix| && m.url[..|LearningsPrefix|] == LearningsPrefix
    then Some(m.(url := m.url[|LearningsPrefix|..]))
    else None
  }

  /**
    The rewrite loses nothing: the decoded record is recovered from the
    rewritten one, and every record that `Unrewrite` accepts is the rewrite
    of what it returns.
   */
  lemma RewriteRoundTrip(m: Metadata, n: Metadata)
    ensures Unrewrite(Rewrite(m)) == Some(m)
    ensures Unrewrite(n) == Some(m) ==> Rewrite(m) == n
  {
  }

  /** A rewritten URL is never empty and always starts at the lessons folder. */
  lemma RewrittenUrlIsRooted(m: Metadata)
    ensures |Rewrite(m).url| == |LearningsPrefix| + |m.url| > 0
    ensures Rewrite(m).url[..|LearningsPrefix|] == LearningsPrefix
    ensures Rewrite(m).url[0] == '/'
  {
  }
}
