/** The string helpers of the controller. */
module Strings {

  /** `unicode.IsSpace`. */
  predicate IsSpace(c: char) {
    var k := c as int;
    9 <= k <= 13 || k == 32 || k == 0x85 || k == 0xA0 || k == 0x1680 || 0x2000 <= k <= 0x200A ||
    k == 0x2028 || k == 0x2029 || k == 0x202F || k == 0x205F || k == 0x3000
  }

  /** `strings.TrimSpace`. */
  function TrimSpace(s: string): (t: string)
    ensures t != "" ==> !IsSpace(t[0]) && !IsSpace(t[|t| - 1])
    decreases |s|
  {
    if s == "" then ""
    else if IsSpace(s[0]) then TrimSpace(s[1..])
    else if IsSpace(s[|s| - 1]) then TrimSpace(s[..|s| - 1])
    else s
  }

  /** Trimming takes away exactly the white space around a core that neither begins nor ends with any. */
  lemma {:induction false} TrimOfPadded(left: string, core: string, right: string)
    requires (forall c :: c in left ==> IsSpace(c)) && (forall c :: c in right ==> IsSpace(c))
    requires core != "" ==> !IsSpace(core[0]) && !IsSpace(core[|core| - 1])
    ensures TrimSpace(left + core + right) == core
    decreases |left| + |right|
  {
    var s := left + core + right;
    if left != "" {
      assert s[1..] == left[1..] + core + right;
      TrimOfPadded(left[1..], core, right);
    } else if right != "" && core == "" {
      assert s == right && s[1..] == "" + core + right[1..];
      TrimOfPadded("", core, right[1..]);
    } else if right != "" {
      assert s[0] == core[0] && s[|s| - 1] == right[|right| - 1];
      assert s[..|s| - 1] == "" + core + right[..|right| - 1];
      TrimOfPadded("", core, right[..|right| - 1]);
    } else {
      assert s == core;
    }
  }

  /** The white space of Latin-1, as the documentation of `unicode.IsSpace` lists it. */
  lemma LatinSpaces(c: char)
    requires c as int < 0x100
    ensures IsSpace(c) <==> c in "\t\n\U{0B}\U{0C}\r \U{85}\U{A0}"
  {
  }
}
