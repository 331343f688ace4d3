/** String helpers the scan loop applies to targets, payloads and operator answers. */
module Text {

  /** Python's `s.startswith(prefix)`. */
  predicate StartsWith(s: string, prefix: string) {
    |prefix| <= |s| && s[..|prefix|] == prefix
  }

  /** Number of occurrences of `c` in `s`. */
  function CountChar(s: string, c: char): nat {
    if s == [] then 0 else (if s[0] == c then 1 else 0) + CountChar(s[1..], c)
  }

  /** Python's `s.replace('/', '%2F')`, the path-mode rewrite of a payload. */
  function EscapeSlashes(s: string): (r: string)
    ensures '/' !in r
    ensures |r| == |s| + 2 * CountChar(s, '/')
  {
    if s == [] then []
    else (if s[0] == '/' then "%2F" else [s[0]]) + EscapeSlashes(s[1..])
  }

  /** The one fact about percent-decoding the model relies on: `%2F` decodes to `/`. */
  function DecodeSlashes(s: string): string {
    if s == [] then []
    else if |s| >= 3 && s[..3] == "%2F" then "/" + DecodeSlashes(s[3..])
    else [s[0]] + DecodeSlashes(s[1..])
  }

  lemma {:induction false} CountCharPositive(s: string, c: char)
    requires c in s
    ensures CountChar(s, c) > 0
  {
    if s[0] != c {
      CountCharPositive(s[1..], c);
    }
  }

  /** A payload without `/` is left alone by the path-mode rewrite. */
  lemma {:induction false} EscapeFixesSlashFree(s: string)
    requires '/' !in s
    ensures EscapeSlashes(s) == s
  {
    if s != [] {
      assert s[0] != '/';
      EscapeFixesSlashFree(s[1..]);
      assert [s[0]] + s[1..] == s;
    }
  }

  /** The rewrite changes a payload exactly when the payload holds a `/`. */
  lemma EscapeChangesIffSlash(s: string)
    ensures EscapeSlashes(s) == s <==> '/' !in s
  {
    if '/' in s {
      CountCharPositive(s, '/');
    } else {
      EscapeFixesSlashFree(s);
    }
  }

  /** Applying the rewrite twice is the same as applying it once. */
  lemma EscapeIdempotent(s: string)
    ensures EscapeSlashes(EscapeSlashes(s)) == EscapeSlashes(s)
  {
    EscapeFixesSlashFree(EscapeSlashes(s));
  }

  /** Decoding `%2F` undoes the rewrite of any payload that holds no `%` of its own. */
  lemma {:induction false} DecodeEscape(s: string)
    requires '%' !in s
    ensures DecodeSlashes(EscapeSlashes(s)) == s
  {
    if s != [] {
      assert '%' !in s[1..] by {
        forall i | 0 <= i < |s[1..]| ensures s[1..][i] != '%' {
          assert s[1..][i] == s[i + 1];
        }
      }
      DecodeEscape(s[1..]);
      var rest := EscapeSlashes(s[1..]);
      if s[0] == '/' {
        assert EscapeSlashes(s) == "%2F" + rest;
        assert ("%2F" + rest)[..3] == "%2F";
        assert ("%2F" + rest)[3..] == rest;
        assert "/" + s[1..] == s;
      } else {
        var e := [s[0]] + rest;
        assert EscapeSlashes(s) == e;
        assert e[0] == s[0] && s[0] != '%';
        assert !(|e| >= 3 && e[..3] == "%2F");
        assert e[1..] == rest;
        assert [s[0]] + s[1..] == s;
      }
    }
  }

  /** Python's `str.lower()` on one character, for the ASCII range. */
  function LowerChar(c: char): char {
    if 'A' <= c <= 'Z' then (c as int + 32) as char else c
  }

  /** Python's `str.lower()`, for the ASCII range. */
  function LowerAscii(s: string): string {
    seq(|s|, i requires 0 <= i < |s| => LowerChar(s[i]))
  }

  /** The operator confirms only with `y` or `Y`: those are the only answers whose lower case is `y`. */
  lemma LowerIsY(s: string)
    ensures LowerAscii(s) == "y" <==> s == "y" || s == "Y"
  {
    if LowerAscii(s) == "y" {
      assert |s| == 1;
      assert LowerAscii(s)[0] == LowerChar(s[0]) == 'y';
      assert s == [s[0]];
    }
    if s == "Y" {
      assert LowerAscii(s)[0] == 'y';
    }
  }
}
