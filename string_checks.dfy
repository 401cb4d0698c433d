/**
 * Two string tests: whether a password is already in an /etc/shadow hash
 * format (`is_shadow_encoded`), and whether a name is a safe portable file
 * name (`is_file_name_safe`).
 */
module StringChecks {
  import opened PyStr

  /** The prefixes of the /etc/shadow hash formats: MD5, two bcrypt
      variants, SHA-256 and SHA-512. */
  const ShadowPrefixes: seq<string> := ["$1$", "$2a$", "$2y$", "$5$", "$6$"]

  /** Some shadow prefix starts the password. */
  predicate HasShadowPrefix(passwd: string) {
    exists j :: 0 <= j < |ShadowPrefixes| && StartsWith(passwd, ShadowPrefixes[j])
  }

  /** `is_shadow_encoded`: the prefixes are tried in order and the first
      that starts the password answers True. */
  method IsShadowEncoded(passwd: string) returns (r: bool)
    ensures r == HasShadowPrefix(passwd)
  {
    for i := 0 to |ShadowPrefixes|
      invariant forall j :: 0 <= j < i ==> !StartsWith(passwd, ShadowPrefixes[j])
    {
      if StartsWith(passwd, ShadowPrefixes[i]) {
        return true;
      }
    }
    return false;
  }

  /** The same test read character by character: a `$`, a format id among
      1, 2a, 2y, 5, 6, and a closing `$`. */
  predicate ShadowShape(p: string) {
    |p| >= 3 && p[0] == '$' &&
    (((p[1] == '1' || p[1] == '5' || p[1] == '6') && p[2] == '$') ||
     (|p| >= 4 && p[1] == '2' && (p[2] == 'a' || p[2] == 'y') && p[3] == '$'))
  }

  lemma ShadowPrefixIsShape(passwd: string)
    ensures HasShadowPrefix(passwd) <==> ShadowShape(passwd)
  {
    if ShadowShape(passwd) {
      var p := passwd;
      if p[1] == '1' && p[2] == '$' {
        assert StartsWith(p, ShadowPrefixes[0]) by { assert p[..3] == "$1$"; }
      } else if p[1] == '5' && p[2] == '$' {
        assert StartsWith(p, ShadowPrefixes[3]) by { assert p[..3] == "$5$"; }
      } else if p[1] == '6' && p[2] == '$' {
        assert StartsWith(p, ShadowPrefixes[4]) by { assert p[..3] == "$6$"; }
      } else if p[2] == 'a' {
        assert StartsWith(p, ShadowPrefixes[1]) by { assert p[..4] == "$2a$"; }
      } else {
        assert StartsWith(p, ShadowPrefixes[2]) by { assert p[..4] == "$2y$"; }
      }
    }
    if HasShadowPrefix(passwd) {
      var j :| 0 <= j < |ShadowPrefixes| && StartsWith(passwd, ShadowPrefixes[j]);
      var q := ShadowPrefixes[j];
      assert passwd[..|q|] == q;
      assert forall i :: 0 <= i < |q| ==> passwd[i] == q[i];
    }
  }

  /** `\w`, `.` or `-` under `re.ASCII`. */
  predicate IsPortableChar(c: char) {
    'a' <= c <= 'z' || 'A' <= c <= 'Z' || '0' <= c <= '9' || c == '_' || c == '.' || c == '-'
  }

  /** Length of the longest prefix of portable characters. */
  function PortableRun(s: string): (k: nat)
    ensures k <= |s|
  {
    if |s| == 0 || !IsPortableChar(s[0]) then 0 else 1 + PortableRun(s[1..])
  }

  /** `is_file_name_safe`: `^(\w|\.|-)+$` fully matches the name (the
      repetition covers all of it, at least once) and the name is neither
      `.` nor `..`. So the safe names are exactly the non-empty names of
      portable characters other than `.` and `..`. */
  function IsFileNameSafe(name: string): (r: bool)
    ensures r <==> name != [] && (forall i :: 0 <= i < |name| ==> IsPortableChar(name[i])) &&
                   name != "." && name != ".."
  {
    PortableRunAll(name);
    |name| > 0 && PortableRun(name) == |name| && name != "." && name != ".."
  }

  lemma {:induction false} PortableRunAll(s: string)
    ensures PortableRun(s) == |s| <==> forall i :: 0 <= i < |s| ==> IsPortableChar(s[i])
  {
    if |s| > 0 {
      PortableRunAll(s[1..]);
      assert forall i :: 1 <= i < |s| ==> s[i] == s[1..][i - 1];
    }
  }

  /** A safe name holds no path separator and no NUL. */
  lemma SafeNameHasNoSeparator(name: string)
    requires IsFileNameSafe(name)
    ensures '/' !in name && '\0' !in name
  {
    assert !IsPortableChar('/') && !IsPortableChar('\0');
  }
}
