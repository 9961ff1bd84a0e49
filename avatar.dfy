/** The avatar: the image when a source is given, otherwise the children or the initials
    of the alternative text. */
module Avatar {
  import opened Wrappers
  import opened Text

  /** `s.split(" ")`: the pieces between single spaces; repeated, leading and trailing
      spaces give empty pieces. */
  function Split(s: string): (words: seq<string>)
    ensures |words| >= 1
    ensures forall i | 0 <= i < |words| :: ' ' !in words[i]
  {
    if s == [] then [""]
    else
      var rest := Split(s[1..]);
      if s[0] == ' ' then [""] + rest else [[s[0]] + rest[0]] + rest[1..]
  }

  /** `words.join(" ")` */
  function Join(words: seq<string>): string
    requires |words| >= 1
  {
    if |words| == 1 then words[0] else words[0] + " " + Join(words[1..])
  }

  /** Splitting loses nothing: joining the pieces back gives the text. */
  lemma {:induction false} JoinSplit(s: string)
    ensures Join(Split(s)) == s
  {
    if s != [] {
      var rest := Split(s[1..]);
      JoinSplit(s[1..]);
      if s[0] == ' ' {
        assert Split(s)[1..] == rest;
      } else if |rest| == 1 {
        assert Split(s) == [[s[0]] + rest[0]];
      } else {
        assert Split(s)[1..] == rest[1..];
        assert Join(rest) == rest[0] + " " + Join(rest[1..]);
      }
    }
  }

  /** `.map((n) => n[0]).join("")`: the first character of every piece, an empty piece
      giving the empty text. */
  function FirstChars(words: seq<string>): (r: string)
    ensures |r| <= |words|
    ensures (forall i | 0 <= i < |words| :: ' ' !in words[i]) ==> ' ' !in r
  {
    if words == [] then []
    else
      var rest := FirstChars(words[1..]);
      assert forall i | 0 <= i < |words| - 1 :: words[1..][i] == words[i + 1];
      (if words[0] == [] then [] else [words[0][0]]) + rest
  }

  /** The characters of `s` that start a word: those that are not spaces and come first
      or right after a space. `afterSpace` says whether the position before `s` counts
      as a word boundary. */
  function WordStarts(s: string, afterSpace: bool): string {
    if s == [] then []
    else (if s[0] != ' ' && afterSpace then [s[0]] else []) + WordStarts(s[1..], s[0] == ' ')
  }

  /** The first characters of the pieces are exactly the characters that start a word;
      the pieces after the first give the word starts after the first space. */
  lemma {:induction false} FirstCharsAreWordStarts(s: string)
    ensures FirstChars(Split(s)) == WordStarts(s, true)
    ensures FirstChars(Split(s)[1..]) == WordStarts(s, false)
  {
    if s != [] {
      FirstCharsAreWordStarts(s[1..]);
      var rest := Split(s[1..]);
      if s[0] == ' ' {
        assert Split(s)[1..] == rest;
      } else {
        assert Split(s)[1..] == rest[1..];
      }
    }
  }

  /** A run of two spaces starts no more words than one space does. */
  lemma {:induction false} DoubleSpaceAddsNothing(x: string, y: string, afterSpace: bool)
    ensures WordStarts(x + "  " + y, afterSpace) == WordStarts(x + " " + y, afterSpace)
  {
    if x == [] {
      assert (x + "  " + y)[1..] == " " + y;
      assert (" " + y)[1..] == y;
      assert (x + " " + y)[1..] == y;
    } else {
      DoubleSpaceAddsNothing(x[1..], y, x[0] == ' ');
      assert (x + "  " + y)[1..] == x[1..] + "  " + y;
      assert (x + " " + y)[1..] == x[1..] + " " + y;
    }
  }

  /** The fallback label: the upper-cased first characters of the space-separated
      pieces of `alt`. It has no space and at most one character per piece, and it is
      the upper-cased word starts of `alt`. */
  function Initials(alt: string): (r: string)
    ensures ' ' !in r
    ensures |r| <= |Split(alt)|
    ensures r == ToUpper(WordStarts(alt, true))
  {
    FirstCharsAreWordStarts(alt);
    var firsts := FirstChars(Split(alt));
    assert forall i | 0 <= i < |firsts| :: firsts[i] != ' ';
    ToUpper(firsts)
  }

  /** Doubling a space between words leaves the initials as they are. */
  lemma InitialsIgnoreRepeatedSpaces(x: string, y: string)
    ensures Initials(x + "  " + y) == Initials(x + " " + y)
  {
    DoubleSpaceAddsNothing(x, y, true);
  }

  /** What the avatar shows. */
  datatype View = Image(src: string) | Label(text: string)

  /** `Avatar`'s branch: a truthy `src` shows the image; otherwise truthy children are
      shown, and the initials only when there are none. */
  function Render(src: Option<string>, alt: string, children: Option<string>): (v: View)
    ensures Truthy(src) <==> v.Image?
    ensures Truthy(src) ==> v == Image(src.value)
    ensures !Truthy(src) && Truthy(children) ==> v == Label(children.value)
    ensures !Truthy(src) && !Truthy(children) ==> v == Label(Initials(alt))
  {
    if Truthy(src) then Image(src.value)
    else if Truthy(children) then Label(children.value)
    else Label(Initials(alt))
  }
}
