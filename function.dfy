/**
 * The helpers of utils/function.py: salt length, password hashing and
 * checking, and line indentation. The SHA-256 digest and the random string
 * generator are foreign and enter as function parameters.
 */
module Function {
  import opened Values

  const DefaultSaltLength: int := 32

  /** `length or 32`: the length `get_salt` asks the random generator for. */
  function SaltLength(length: Option<int>): int
  {
    if length.None? || length.value == 0 then DefaultSaltLength else length.value
  }

  /** `get_salt(length)`, with `randomString` standing for `get_random_string`. */
  function GetSalt(randomString: int -> string, length: Option<int>): (salt: string)
    ensures length.None? || length == Some(0) ==> salt == randomString(32)
    ensures length.Some? && length.value != 0 ==> salt == randomString(length.value)
  {
    randomString(SaltLength(length))
  }

  /**
   * With a generator that returns strings of the requested length, the salt
   * has the given length, or 32 when the length is missing or zero.
   */
  lemma GetSaltLength(randomString: int -> string, length: Option<int>)
    requires forall n :: n >= 0 ==> |randomString(n)| == n
    requires length.Some? ==> length.value >= 0
    ensures length.None? || length == Some(0) ==> |GetSalt(randomString, length)| == 32
    ensures length.Some? && length.value != 0 ==> |GetSalt(randomString, length)| == length.value
  {
  }

  /** `hash_password`: the digest (`digest` stands for sha256-hexdigest) of `password + salt`. */
  function HashPassword(digest: string -> string, password: string, salt: string): string
  {
    digest(password + salt)
  }

  /** The hash depends on nothing but the concatenation of password and salt. */
  lemma HashOfConcatenation(digest: string -> string, p1: string, s1: string, p2: string, s2: string)
    requires p1 + s1 == p2 + s2
    ensures HashPassword(digest, p1, s1) == HashPassword(digest, p2, s2)
  {
  }

  /**
   * `verify_password`: an empty password is accepted whatever the stored key
   * (`None` stands for a user without a password); otherwise the key must be
   * the hash of the password with the salt.
   */
  function VerifyPassword(digest: string -> string, password: string, salt: string, key: Option<string>): bool
  {
    if password != "" then key == Some(HashPassword(digest, password, salt)) else true
  }

  lemma EmptyPasswordVerifies(digest: string -> string, salt: string, key: Option<string>)
    ensures VerifyPassword(digest, "", salt, key)
  {
  }

  lemma VerifyNonEmpty(digest: string -> string, password: string, salt: string, key: Option<string>)
    requires password != ""
    ensures VerifyPassword(digest, password, salt, key) <==> key == Some(HashPassword(digest, password, salt))
  {
  }

  /** A stored hash always verifies against the password it was made from. */
  lemma VerifyHashed(digest: string -> string, password: string, salt: string)
    ensures VerifyPassword(digest, password, salt, Some(HashPassword(digest, password, salt)))
  {
  }

  // ----- indent -----

  const DefaultIndent: string := "\t"

  function IndexOf(s: string, c: char): (i: nat)
    requires c in s
    ensures i < |s| && s[i] == c && c !in s[..i]
  {
    if s[0] == c then 0
    else
      assert c in s[1..];
      var j := IndexOf(s[1..], c);
      assert s[..j + 1] == [s[0]] + s[1..][..j];
      j + 1
  }

  /** `s.split('\n')`: never empty; `''` splits into `['']`. */
  function Split(s: string): (lines: seq<string>)
    ensures |lines| >= 1
    decreases |s|
  {
    if '\n' in s then
      var i := IndexOf(s, '\n');
      [s[..i]] + Split(s[i + 1..])
    else [s]
  }

  /** `'\n'.join(lines)`. */
  function Join(lines: seq<string>): string
  {
    if |lines| == 0 then ""
    else if |lines| == 1 then lines[0]
    else lines[0] + "\n" + Join(lines[1..])
  }

  function PrefixAll(lines: seq<string>, prefix: string): (r: seq<string>)
    ensures |r| == |lines|
    ensures forall i :: 0 <= i < |lines| ==> r[i] == prefix + lines[i]
  {
    seq(|lines|, i requires 0 <= i < |lines| => prefix + lines[i])
  }

  /** `indent(string, indent)`: every line, empty ones included, gets the prefix. */
  function Indent(s: string, prefix: string): string
  {
    Join(PrefixAll(Split(s), prefix))
  }

  function StripPrefix(line: string, prefix: string): string
  {
    if prefix <= line then line[|prefix|..] else line
  }

  /** The inverse of `Indent`: the prefix taken off every line. */
  function Unindent(t: string, prefix: string): string
  {
    var lines := Split(t);
    Join(seq(|lines|, i requires 0 <= i < |lines| => StripPrefix(lines[i], prefix)))
  }

  lemma {:induction false} SplitLinesHaveNoNewline(s: string)
    ensures forall i :: 0 <= i < |Split(s)| ==> '\n' !in Split(s)[i]
    decreases |s|
  {
    if '\n' in s {
      var i := IndexOf(s, '\n');
      SplitLinesHaveNoNewline(s[i + 1..]);
    }
  }

  lemma {:induction false} JoinSplit(s: string)
    ensures Join(Split(s)) == s
    decreases |s|
  {
    if '\n' in s {
      var i := IndexOf(s, '\n');
      var rest := Split(s[i + 1..]);
      JoinSplit(s[i + 1..]);
      assert Split(s) == [s[..i]] + rest;
      assert (([s[..i]] + rest)[1..]) == rest;
      assert s == s[..i] + "\n" + s[i + 1..];
    }
  }

  /** The first newline of `first + "\n" + rest` is the one after `first`, when `first` has none. */
  lemma FirstNewline(first: string, rest: string)
    requires '\n' !in first
    ensures IndexOf(first + "\n" + rest, '\n') == |first|
  {
    var s := first + "\n" + rest;
    var i := IndexOf(s, '\n');
    assert s[|first|] == '\n';
    assert forall j :: 0 <= j < |first| ==> s[j] == first[j];
    assert forall j :: 0 <= j < i ==> s[..i][j] == s[j];
  }

  lemma {:induction false} SplitJoin(lines: seq<string>)
    requires |lines| >= 1
    requires forall i :: 0 <= i < |lines| ==> '\n' !in lines[i]
    ensures Split(Join(lines)) == lines
  {
    if |lines| > 1 {
      var first := lines[0];
      var rest := Join(lines[1..]);
      var s := first + "\n" + rest;
      assert Join(lines) == s;
      FirstNewline(first, rest);
      assert s[..|first|] == first;
      assert s[|first| + 1..] == rest;
      SplitJoin(lines[1..]);
      assert Split(s) == [first] + lines[1..];
    }
  }

  /**
   * Indenting keeps the number of lines and prefixes every one of them, as
   * long as the prefix itself holds no newline.
   */
  lemma IndentLines(s: string, prefix: string)
    requires '\n' !in prefix
    ensures |Split(Indent(s, prefix))| == |Split(s)|
    ensures forall i :: 0 <= i < |Split(s)| ==> Split(Indent(s, prefix))[i] == prefix + Split(s)[i]
  {
    var lines := PrefixAll(Split(s), prefix);
    SplitLinesHaveNoNewline(s);
    forall i | 0 <= i < |lines| ensures '\n' !in lines[i] {
      assert lines[i] == prefix + Split(s)[i];
    }
    SplitJoin(lines);
  }

  /** A string without newlines just gets the prefix in front. */
  lemma IndentSingleLine(s: string, prefix: string)
    requires '\n' !in s
    ensures Indent(s, prefix) == prefix + s
  {
  }

  /** With the default prefix a single line gets one tab in front. */
  lemma IndentDefault(s: string)
    requires '\n' !in s
    ensures Indent(s, DefaultIndent) == "\t" + s
  {
  }

  /** Taking the prefix off every line of `Indent(s, prefix)` gives `s` back. */
  lemma UnindentIndent(s: string, prefix: string)
    requires '\n' !in prefix
    ensures Unindent(Indent(s, prefix), prefix) == s
  {
    IndentLines(s, prefix);
    var t := Indent(s, prefix);
    var lines := Split(t);
    var stripped := seq(|lines|, i requires 0 <= i < |lines| => StripPrefix(lines[i], prefix));
    assert stripped == Split(s) by {
      forall i | 0 <= i < |lines| ensures stripped[i] == Split(s)[i] {
        assert lines[i] == prefix + Split(s)[i];
        assert (prefix + Split(s)[i])[|prefix|..] == Split(s)[i];
      }
    }
    JoinSplit(s);
  }
}
