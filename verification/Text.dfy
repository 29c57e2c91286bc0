/** Character classes used by the indexing contracts. */
module Text {

  /** The characters `str.strip()` removes: Unicode whitespace as Python defines it. */
  predicate IsSpace(c: char) {
    var n := c as int;
    || 0x9 <= n <= 0xd
    || 0x1c <= n <= 0x20
    || n == 0x85 || n == 0xa0 || n == 0x1680
    || 0x2000 <= n <= 0x200a
    || n == 0x2028 || n == 0x2029 || n == 0x202f || n == 0x205f || n == 0x3000
  }

  /** `not text.strip()` */
  predicate Blank(text: string) {
    forall i :: 0 <= i < |text| ==> IsSpace(text[i])
  }

  /** str.strip removes these characters and no others. */
  lemma BlankExamples()
    ensures Blank("") && Blank(" \t\r\n") && !Blank(" x ")
    ensures forall c: char :: IsSpace(c) <==> c as int in {9, 10, 11, 12, 13, 28, 29, 30, 31, 32, 133, 160, 5760, 8192, 8193, 8194, 8195, 8196, 8197,
                                                          8198, 8199, 8200, 8201, 8202, 8232, 8233, 8239, 8287, 12288}
  {
    assert !IsSpace(" x "[1]);
  }

  predicate IsLowerHex(c: char) {
    '0' <= c <= '9' || 'a' <= c <= 'f'
  }

  predicate IsSha256(text: string) {
    |text| == 64 && forall i :: 0 <= i < |text| ==> IsLowerHex(text[i])
  }
}
