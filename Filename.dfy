/** The name under which an exported PDF is downloaded:
    `${title.replace(/\s/g, '_') || 'screenplay'}.pdf`. */
module Filename {

  /** The characters JavaScript's `\s` class matches: the ECMAScript
      WhiteSpace and LineTerminator code points. */
  predicate IsWhitespace(c: char): (b: bool)
    ensures c == ' ' || c == '\t' || c == '\n' || c == '\r' ==> b
    ensures c == '_' || c == '.' ==> !b
  {
    var n := c as int;
    (9 <= n <= 13) || n == 0x20 || n == 0xA0 || n == 0x1680 ||
    (0x2000 <= n <= 0x200A) || n == 0x2028 || n == 0x2029 ||
    n == 0x202F || n == 0x205F || n == 0x3000 || n == 0xFEFF
  }

  /** `s.replace(/\s/g, '_')` */
  function ReplaceWhitespace(s: string): (r: string)
    ensures |r| == |s|
  {
    if s == [] then []
    else [if IsWhitespace(s[0]) then '_' else s[0]] + ReplaceWhitespace(s[1..])
  }

  /** The replacement keeps the length, turns exactly the whitespace
      characters into `_` and keeps every other character in place. */
  lemma {:induction false} ReplaceWhitespaceAt(s: string)
    ensures |ReplaceWhitespace(s)| == |s|
    ensures forall i :: 0 <= i < |s| ==>
              ReplaceWhitespace(s)[i] == if IsWhitespace(s[i]) then '_' else s[i]
  {
    if s != [] {
      ReplaceWhitespaceAt(s[1..]);
      var r := ReplaceWhitespace(s);
      forall i | 0 <= i < |s|
        ensures r[i] == if IsWhitespace(s[i]) then '_' else s[i]
      {
        if i > 0 {
          assert r[i] == ReplaceWhitespace(s[1..])[i - 1];
          assert s[i] == s[1..][i - 1];
        }
      }
    }
  }

  /** The replaced title contains no whitespace. */
  lemma NoWhitespaceLeft(s: string)
    ensures forall i :: 0 <= i < |ReplaceWhitespace(s)| ==> !IsWhitespace(ReplaceWhitespace(s)[i])
  {
    ReplaceWhitespaceAt(s);
  }

  /** A title that has no whitespace is used as it is. */
  lemma ReplaceWhitespaceIdle(s: string)
    requires forall i :: 0 <= i < |s| ==> !IsWhitespace(s[i])
    ensures ReplaceWhitespace(s) == s
  {
    ReplaceWhitespaceAt(s);
  }

  const PdfSuffix := ".pdf"
  const DefaultStem := "screenplay"

  /** The download name for the current title. The replaced title is falsy,
      and `'screenplay'` is used, exactly when the title is empty. */
  function PdfFileName(title: string): (name: string)
    ensures |name| == (if title == "" then |DefaultStem| else |title|) + |PdfSuffix|
    ensures name[|name| - |PdfSuffix|..] == PdfSuffix
    ensures title == "" ==> name[..|DefaultStem|] == DefaultStem
    ensures title != "" ==> forall i :: 0 <= i < |title| ==>
              name[i] == if IsWhitespace(title[i]) then '_' else title[i]
  {
    ReplaceWhitespaceAt(title);
    var stem := ReplaceWhitespace(title);
    (if stem == "" then DefaultStem else stem) + PdfSuffix
  }
}
