/**
 * Captions the processor builds with f-strings: a fixed prefix, the plant
 * name, a fixed suffix. `Subject` reads the plant name back out of such a
 * caption, so a caption is shown to carry its plant name without loss.
 */
module Text {
  import opened Wrappers

  predicate StartsWith(s: string, prefix: string)
  {
    |prefix| <= |s| && s[..|prefix|] == prefix
  }

  predicate EndsWith(s: string, suffix: string)
  {
    |suffix| <= |s| && s[|s| - |suffix|..] == suffix
  }

  /** The caption `prefix + subject + suffix`. */
  function Fill(prefix: string, subject: string, suffix: string): (r: string)
    ensures |r| == |prefix| + |subject| + |suffix|
    ensures StartsWith(r, prefix) && EndsWith(r, suffix)
  {
    prefix + subject + suffix
  }

  /** The subject of a caption shaped `prefix + _ + suffix`, or None for any other string. */
  function Subject(prefix: string, suffix: string, s: string): (r: Option<string>)
    ensures r.Some? <==> |prefix| + |suffix| <= |s| && StartsWith(s, prefix) && EndsWith(s, suffix)
    ensures r.Some? ==> Fill(prefix, r.value, suffix) == s
  {
    if |prefix| + |suffix| <= |s| && StartsWith(s, prefix) && EndsWith(s, suffix) then
      var sub := s[|prefix|..|s| - |suffix|];
      assert s == s[..|prefix|] + sub + s[|s| - |suffix|..];
      Some(sub)
    else
      None
  }

  /** Reading back a filled caption gives the subject that was filled in. */
  lemma SubjectOfFill(prefix: string, subject: string, suffix: string)
    ensures Subject(prefix, suffix, Fill(prefix, subject, suffix)) == Some(subject)
  {
    var s := Fill(prefix, subject, suffix);
    assert s[|prefix|..|s| - |suffix|] == subject;
  }

  /** Two captions from one template are equal exactly when their subjects are. */
  lemma FillInjective(prefix: string, a: string, b: string, suffix: string)
    ensures Fill(prefix, a, suffix) == Fill(prefix, b, suffix) <==> a == b
  {
    if Fill(prefix, a, suffix) == Fill(prefix, b, suffix) {
      SubjectOfFill(prefix, a, suffix);
      SubjectOfFill(prefix, b, suffix);
    }
  }
}
