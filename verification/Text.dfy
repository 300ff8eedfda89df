/** The string operations the services share. */
module Text {

  /** What `String.prototype.trim` removes: the WhiteSpace and LineTerminator code points of
      sections 12.2 and 12.3 of ECMA-262. */
  predicate IsWhiteSpace(c: char) {
    || '\t' <= c <= '\r'
    || c == ' '
    || c == '\U{00A0}'
    || c == '\U{1680}'
    || '\U{2000}' <= c <= '\U{200A}'
    || c == '\U{2028}'
    || c == '\U{2029}'
    || c == '\U{202F}'
    || c == '\U{205F}'
    || c == '\U{3000}'
    || c == '\U{FEFF}'
  }

  /** No white space at either end. */
  predicate Trimmed(s: string) {
    s != "" ==> !IsWhiteSpace(s[0]) && !IsWhiteSpace(s[|s| - 1])
  }

  function Trim(s: string): (r: string)
    ensures Trimmed(r)
    ensures Trimmed(s) ==> r == s
  {
    if s == "" then ""
    else if IsWhiteSpace(s[0]) then Trim(s[1..])
    else if IsWhiteSpace(s[|s| - 1]) then Trim(s[..|s| - 1])
    else s
  }

  predicate Blank(s: string) {
    forall i | 0 <= i < |s| :: IsWhiteSpace(s[i])
  }

  /** Trimming takes white space off the two ends and nothing else. */
  lemma {:induction false} TrimKeepsMiddle(s: string) returns (before: string, after: string)
    ensures s == before + Trim(s) + after && Blank(before) && Blank(after)
  {
    hide IsWhiteSpace;
    before, after := "", "";
    if s == "" {
    } else if IsWhiteSpace(s[0]) {
      before, after := TrimKeepsMiddle(s[1..]);
      before := [s[0]] + before;
    } else if IsWhiteSpace(s[|s| - 1]) {
      before, after := TrimKeepsMiddle(s[..|s| - 1]);
      after := after + [s[|s| - 1]];
    }
  }

  /** The characters trimmed away, one by one. */
  lemma TrimmedAway(c: char)
    ensures Trim([c]) == if c in {'\U{0009}', '\U{000A}', '\U{000B}', '\U{000C}', '\U{000D}', '\U{0020}', '\U{00A0}', '\U{1680}',
                                  '\U{2000}', '\U{2001}', '\U{2002}', '\U{2003}', '\U{2004}', '\U{2005}', '\U{2006}', '\U{2007}',
                                  '\U{2008}', '\U{2009}', '\U{200A}', '\U{2028}', '\U{2029}', '\U{202F}', '\U{205F}', '\U{3000}',
                                  '\U{FEFF}'} then "" else [c]
  {
    assert [c][1..] == "";
  }
}
