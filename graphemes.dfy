/**
 * Text that has already been split into extended grapheme clusters
 * (Unicode Standard Annex #29, Unicode Text Segmentation, section 3).
 * The segmentation itself is not part of this model: a message's content
 * arrives as the sequence of its clusters, and its text is their concatenation.
 */
module Graphemes {

  /** One user-perceived character: a non-empty run of code points. */
  type Cluster = s: string | s != [] witness "_"

  /** The text spelled by a sequence of clusters. */
  function Text(clusters: seq<Cluster>): (s: string)
    ensures |s| >= |clusters|
    ensures s == [] <==> clusters == []
  {
    if clusters == [] then [] else clusters[0] + Text(clusters[1..])
  }

  /** Concatenating cluster sequences concatenates their texts. */
  lemma {:induction false} TextAppend(a: seq<Cluster>, b: seq<Cluster>)
    ensures Text(a + b) == Text(a) + Text(b)
  {
    if a == [] {
      assert a + b == b;
    } else {
      assert (a + b)[1..] == a[1..] + b;
      TextAppend(a[1..], b);
    }
  }

  /**
   * Cutting a cluster sequence anywhere cuts its text at a cluster boundary:
   * the text of the first k clusters is a prefix of the whole text, and what
   * follows it is exactly the text of the remaining clusters.
   */
  lemma SplitAtCluster(clusters: seq<Cluster>, k: nat)
    requires k <= |clusters|
    ensures Text(clusters) == Text(clusters[..k]) + Text(clusters[k..])
    ensures Text(clusters[..k]) <= Text(clusters)
  {
    assert clusters == clusters[..k] + clusters[k..];
    TextAppend(clusters[..k], clusters[k..]);
  }
}
