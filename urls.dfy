/**
 * Base-URL normalisation of the agent client: Python's `str.rstrip('/')`,
 * which removes every trailing '/' character and nothing else.
 */
module Urls {

  /** `s` is empty or its last character is not a slash. */
  predicate NoTrailingSlash(s: string) {
    |s| == 0 || s[|s| - 1] != '/'
  }

  /** Every character of `s` is a slash. */
  predicate AllSlashes(s: string) {
    forall i :: 0 <= i < |s| ==> s[i] == '/'
  }

  /** `s.rstrip('/')` */
  function StripTrailingSlashes(s: string): string
    decreases |s|
  {
    if |s| > 0 && s[|s| - 1] == '/' then StripTrailingSlashes(s[..|s| - 1]) else s
  }

  /**
   * Reference definition: `r` is a prefix of `s` that does not end in a
   * slash, and what `s` has beyond `r` consists of slashes only.
   */
  predicate IsSlashStripped(s: string, r: string) {
    r <= s && NoTrailingSlash(r) && AllSlashes(s[|r|..])
  }

  /** Stripping yields a prefix without a trailing slash, having removed only slashes. */
  lemma {:induction false} StripTrailingSlashesCorrect(s: string)
    ensures IsSlashStripped(s, StripTrailingSlashes(s))
    decreases |s|
  {
    if |s| > 0 && s[|s| - 1] == '/' {
      var t := s[..|s| - 1];
      StripTrailingSlashesCorrect(t);
      var r := StripTrailingSlashes(t);
      assert s[|r|..] == t[|r|..] + ['/'];
    }
  }

  /** Conversely, the reference definition determines the stripped string. */
  lemma {:induction false} StripTrailingSlashesUnique(s: string, r: string)
    requires IsSlashStripped(s, r)
    ensures StripTrailingSlashes(s) == r
    decreases |s|
  {
    if |s| > |r| {
      assert s[|s| - 1] == s[|r|..][|s| - 1 - |r|];
      var t := s[..|s| - 1];
      assert t[|r|..] == s[|r|..][..|s| - 1 - |r|];
      StripTrailingSlashesUnique(t, r);
    } else {
      assert s == r;
    }
  }

  /** Stripping a second time changes nothing. */
  lemma StripTrailingSlashesIdempotent(s: string)
    ensures StripTrailingSlashes(StripTrailingSlashes(s)) == StripTrailingSlashes(s)
  {
    var r := StripTrailingSlashes(s);
    StripTrailingSlashesCorrect(s);
    assert r[|r|..] == [];
    StripTrailingSlashesUnique(r, r);
  }

  /** Extra trailing slashes on the input make no difference to the result. */
  lemma StripIgnoresTrailingSlashes(u: string, t: string)
    requires AllSlashes(t)
    ensures StripTrailingSlashes(u + t) == StripTrailingSlashes(u)
  {
    var r := StripTrailingSlashes(u);
    StripTrailingSlashesCorrect(u);
    assert (u + t)[|r|..] == u[|r|..] + t;
    StripTrailingSlashesUnique(u + t, r);
  }
}
