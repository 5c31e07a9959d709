/** The one question the domain asks about text: is it blank? */
module Text {

  /** The characters str.strip() removes. */
  predicate IsSpace(c: char) {
    var n := c as int;
    9 <= n <= 13 || 28 <= n <= 32 || n in {0x85, 0xA0, 0x1680, 0x2028, 0x2029, 0x202F, 0x205F, 0x3000} ||
    0x2000 <= n <= 0x200A
  }

  predicate Blank(s: string) {
    forall c <- s :: IsSpace(c)
  }

  lemma NotBlank(text: string)
    requires text != [] && !IsSpace(text[0])
    ensures !Blank(text)
  {
  }

  predicate NoneBlank(texts: seq<string>) {
    forall text <- texts :: !Blank(text)
  }
}
