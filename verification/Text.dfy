/** Character classes shared by the places that trim text before looking at it. */
module Text {
  predicate IsSpace(c: char): (space: bool)
    ensures c in " \t\n\r" ==> space
    ensures '!' <= c <= '~' ==> !space
  {
    var n := c as int;
    || 0x09 <= n <= 0x0d || n == 0x20 || n == 0x85 || n == 0xa0
    || n == 0x1680 || 0x2000 <= n <= 0x200a || n == 0x2028 || n == 0x2029
    || n == 0x202f || n == 0x205f || n == 0x3000
  }

  /** Trimming leaves nothing: the text is empty or all white space. */
  predicate Blank(s: string) {
    forall k :: 0 <= k < |s| ==> IsSpace(s[k])
  }

  /** `part` stands somewhere in `text`. */
  ghost predicate Contains(text: string, part: string) {
    exists before, after :: text == before + part + after
  }

  lemma ContainsMore(text: string, part: string, left: string, right: string)
    requires Contains(text, part)
    ensures Contains(left + text + right, part)
  {
    var before, after :| text == before + part + after;
    assert left + text + right == (left + before) + part + (after + right);
  }
}
