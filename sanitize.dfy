/** `sanitize_filename`: keep letters, digits, space, underscore and hyphen,
    replace every other character by an underscore.

    Python's `str.isalnum` follows Unicode; it is a parameter here
    (`isAlnum`), and `AsciiExact` says what is known of it: on the ASCII range
    it accepts exactly the letters and digits. */
module Sanitize {

  predicate IsAsciiAlnum(c: char) {
    ('a' <= c <= 'z') || ('A' <= c <= 'Z') || ('0' <= c <= '9')
  }

  /** `isAlnum` agrees with `str.isalnum` on every ASCII character. */
  ghost predicate AsciiExact(isAlnum: char -> bool) {
    forall c: char :: (c as int) < 128 ==> (isAlnum(c) <==> IsAsciiAlnum(c))
  }

  /** The characters `sanitize_filename` keeps verbatim. */
  predicate Kept(c: char, isAlnum: char -> bool) {
    isAlnum(c) || c == ' ' || c == '_' || c == '-'
  }

  function SafeChar(c: char, isAlnum: char -> bool): char {
    if Kept(c, isAlnum) then c else '_'
  }

  /** The join over the characters of `name`: each one kept or replaced, in place. */
  function SanitizeFilename(name: string, isAlnum: char -> bool): (r: string)
    ensures |r| == |name|
    ensures forall i :: 0 <= i < |name| ==>
      (Kept(name[i], isAlnum) ==> r[i] == name[i]) && (!Kept(name[i], isAlnum) ==> r[i] == '_')
  {
    seq(|name|, i requires 0 <= i < |name| => SafeChar(name[i], isAlnum))
  }

  /** Every character of the result is one a file name may safely hold. */
  lemma OnlySafeChars(name: string, isAlnum: char -> bool)
    ensures forall i :: 0 <= i < |name| ==> Kept(SanitizeFilename(name, isAlnum)[i], isAlnum)
  {
  }

  /** Sanitizing a sanitized name changes nothing. */
  lemma Idempotent(name: string, isAlnum: char -> bool)
    ensures SanitizeFilename(SanitizeFilename(name, isAlnum), isAlnum) == SanitizeFilename(name, isAlnum)
  {
    var r := SanitizeFilename(name, isAlnum);
    OnlySafeChars(name, isAlnum);
    var rr := SanitizeFilename(r, isAlnum);
    assert forall i :: 0 <= i < |r| ==> rr[i] == r[i];
  }

  /** A name comes back unchanged exactly when all its characters are kept. */
  lemma UnchangedIffSafe(name: string, isAlnum: char -> bool)
    ensures SanitizeFilename(name, isAlnum) == name <==> forall i :: 0 <= i < |name| ==> Kept(name[i], isAlnum)
  {
    var r := SanitizeFilename(name, isAlnum);
    if r == name {
      forall i | 0 <= i < |name| ensures Kept(name[i], isAlnum) {
        assert name[i] == r[i];
      }
    }
  }

  /** The repository's example of a name holding separators and punctuation. */
  lemma PunctuationReplaced(isAlnum: char -> bool)
    requires AsciiExact(isAlnum)
    ensures SanitizeFilename("Hello:Case/Name?", isAlnum) == "Hello_Case_Name_"
  {
    var s := "Hello:Case/Name?";
    var r := SanitizeFilename(s, isAlnum);
    assert !isAlnum(':') && !isAlnum('/') && !isAlnum('?');
    forall i | 0 <= i < |s| ensures r[i] == "Hello_Case_Name_"[i] {
      assert (s[i] as int) < 128;
    }
  }

  /** The repository's examples of names that are already safe. */
  lemma SafeNamesUnchanged(isAlnum: char -> bool)
    requires AsciiExact(isAlnum)
    ensures SanitizeFilename("A Case Name", isAlnum) == "A Case Name"
    ensures SanitizeFilename("simple-name", isAlnum) == "simple-name"
  {
    UnchangedIffSafe("A Case Name", isAlnum);
    UnchangedIffSafe("simple-name", isAlnum);
  }
}
