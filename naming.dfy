/** Endpoint identifier derivation, shared by ParseModelParams,
    ParseDestroyParams and ParseTransitionParams: lower-case the name,
    delete every match of the RE2 class `[\W_]`, and keep at most 13 runes.
    Go's `\w` is ASCII-only ([0-9A-Za-z_]), so the class deletes every
    character except the ASCII letters and digits. */
module Naming {

  const MaxEndpointLength := 13

  /** A character that survives `[\W_]`. */
  predicate IsAsciiAlnum(c: char) {
    ('a' <= c <= 'z') || ('A' <= c <= 'Z') || ('0' <= c <= '9')
  }

  /** A character that may appear in a derived endpoint. */
  predicate IsEndpointChar(c: char) {
    ('a' <= c <= 'z') || ('0' <= c <= '9')
  }

  /** ASCII lower-casing; every other character is left as it is (and is
      then stripped, since it is not an ASCII letter or digit). */
  function LowerChar(c: char): char {
    if 'A' <= c <= 'Z' then (c as int + 32) as char else c
  }

  const LowerAlphabet := "abcdefghijklmnopqrstuvwxyz"

  /** `strings.ToLower`, restricted to ASCII. */
  function Lower(s: string): (r: string)
    ensures |r| == |s|
    ensures forall i :: 0 <= i < |r| ==> !IsUpper(r[i])
    ensures forall i :: 0 <= i < |r| ==> (IsAsciiAlnum(r[i]) <==> IsAsciiAlnum(s[i]))
    // every other character is kept, and 'A'..'Z' become 'a'..'z' in alphabet order
    ensures forall i :: 0 <= i < |s| && !IsUpper(s[i]) ==> r[i] == s[i]
    ensures forall i :: 0 <= i < |s| && IsUpper(s[i]) ==> r[i] == LowerAlphabet[s[i] as int - 'A' as int]
  {
    seq(|s|, i requires 0 <= i < |s| => LowerChar(s[i]))
  }

  /** `ReplaceAllString(s, "")` for the pattern `[\W_]`: the characters of
      `s` that are ASCII letters or digits, in order. */
  function Strip(s: string): (r: string)
    ensures |r| <= |s|
    ensures forall i :: 0 <= i < |r| ==> IsAsciiAlnum(r[i])
  {
    if s == [] then []
    else if IsAsciiAlnum(s[0]) then [s[0]] + Strip(s[1..])
    else Strip(s[1..])
  }

  /** The normalised name before truncation. */
  function Stripped(name: string): string {
    Strip(Lower(name))
  }

  /** The rune-count cut of the parsers: all of `s` below 14 runes,
      otherwise its first 13. */
  function Truncate(s: string): (r: string)
    ensures |r| <= MaxEndpointLength
    ensures r <= s
    ensures |r| == if |s| < MaxEndpointLength then |s| else MaxEndpointLength
  {
    if |s| >= 14 then s[..13] else s
  }

  /** The endpoint identifier derived from a user-supplied name. */
  function Normalize(name: string): (r: string)
    ensures |r| <= MaxEndpointLength
    ensures r <= Stripped(name)
    ensures |Stripped(name)| < 14 ==> r == Stripped(name)
  {
    Truncate(Stripped(name))
  }

  /** The name every resource of a bundle carries: endpoint + canary_version. */
  function Variant(endpoint: string, canaryVersion: string): string {
    endpoint + canaryVersion
  }

  predicate IsUpper(c: char) {
    'A' <= c <= 'Z'
  }

  /** Stripping a string without upper-case letters leaves only `a`-`z`
      and `0`-`9`. */
  lemma {:induction false} StripOfLower(s: string)
    requires forall i :: 0 <= i < |s| ==> !IsUpper(s[i])
    ensures forall i :: 0 <= i < |Strip(s)| ==> IsEndpointChar(Strip(s)[i])
  {
    if s != [] {
      StripOfLower(s[1..]);
    }
  }

  /** Every derived endpoint is made of `a`-`z` and `0`-`9` only. */
  lemma NormalizeCharset(name: string)
    ensures forall i :: 0 <= i < |Normalize(name)| ==> IsEndpointChar(Normalize(name)[i])
  {
    StripOfLower(Lower(name));
  }

  lemma {:induction false} LowerOfEndpointChars(s: string)
    requires forall i :: 0 <= i < |s| ==> IsEndpointChar(s[i])
    ensures Lower(s) == s
  {
  }

  lemma {:induction false} StripOfAlnum(s: string)
    requires forall i :: 0 <= i < |s| ==> IsAsciiAlnum(s[i])
    ensures Strip(s) == s
  {
    if s != [] {
      StripOfAlnum(s[1..]);
    }
  }

  /** A derived endpoint derives to itself: the parsers are idempotent. */
  lemma NormalizeIdempotent(name: string)
    ensures Normalize(Normalize(name)) == Normalize(name)
  {
    var e := Normalize(name);
    NormalizeCharset(name);
    LowerOfEndpointChars(e);
    StripOfAlnum(e);
  }

  /** Names that differ only in ASCII case derive the same endpoint. */
  lemma NormalizeIgnoresCase(name: string)
    ensures Normalize(Lower(name)) == Normalize(name)
  {
    assert Lower(Lower(name)) == Lower(name);
  }

  lemma {:induction false} StripConcat(a: string, b: string)
    ensures Strip(a + b) == Strip(a) + Strip(b)
  {
    if a == [] {
      assert a + b == b;
    } else {
      assert (a + b)[1..] == a[1..] + b;
      StripConcat(a[1..], b);
    }
  }

  lemma {:induction false} StripOfPunctuation(s: string)
    requires forall i :: 0 <= i < |s| ==> !IsAsciiAlnum(s[i])
    ensures Strip(s) == []
  {
    if s != [] {
      StripOfPunctuation(s[1..]);
    }
  }

  /** Stripping a word, a separator, a word and a separator keeps the words. */
  lemma StripWords(a: string, b: string, c: string, d: string)
    requires forall i :: 0 <= i < |a| ==> IsAsciiAlnum(a[i])
    requires forall i :: 0 <= i < |c| ==> IsAsciiAlnum(c[i])
    requires forall i :: 0 <= i < |b| ==> !IsAsciiAlnum(b[i])
    requires forall i :: 0 <= i < |d| ==> !IsAsciiAlnum(d[i])
    ensures Strip(a + b + c + d) == a + c
  {
    StripOfAlnum(a);
    StripOfAlnum(c);
    StripOfPunctuation(b);
    StripOfPunctuation(d);
    StripConcat(a, b);
    var ab := Strip(a + b);
    assert ab == a;
    StripConcat(a + b, c);
    var abc := Strip(a + b + c);
    assert abc == a + c;
    StripConcat(a + b + c, d);
    assert Strip(a + b + c + d) == abc + [];
  }

  /** Lower-casing works character by character. */
  lemma LowerConcat(a: string, b: string)
    ensures Lower(a + b) == Lower(a) + Lower(b)
  {
  }

  /** A short name made of a word, a separator, a word and a separator
      derives the two words, lower-cased and joined. */
  lemma NormalizeWords(a: string, b: string, c: string, d: string)
    requires forall i :: 0 <= i < |a| ==> IsAsciiAlnum(a[i])
    requires forall i :: 0 <= i < |c| ==> IsAsciiAlnum(c[i])
    requires forall i :: 0 <= i < |b| ==> !IsAsciiAlnum(b[i])
    requires forall i :: 0 <= i < |d| ==> !IsAsciiAlnum(d[i])
    requires |a| + |c| < 14
    ensures Normalize(a + b + c + d) == Lower(a) + Lower(c)
  {
    LowerConcat(a + b + c, d);
    LowerConcat(a + b, c);
    LowerConcat(a, b);
    assert Lower(b) == b;
    assert Lower(d) == d;
    StripWords(Lower(a), b, Lower(c), d);
  }

  // The example "My Endpoint!!", in pieces small enough for the solver.
  lemma ExamplePieces()
    ensures "My Endpoint!!" == "My" + " " + "Endpoint" + "!!"
  {
  }

  lemma ExampleLowered()
    ensures Lower("My") == "my" && Lower("Endpoint") == "endpoint"
  {
  }

  lemma ExampleWords()
    ensures Normalize("My" + " " + "Endpoint" + "!!") == Lower("My") + Lower("Endpoint")
  {
    NormalizeWords("My", " ", "Endpoint", "!!");
  }

  lemma ExampleSpacesAndPunctuation()
    ensures Normalize("My Endpoint!!") == "myendpoint"
  {
    ExamplePieces();
    ExampleLowered();
    ExampleWords();
  }

  function TotalLength(xs: seq<string>): nat {
    if xs == [] then 0 else |xs[0]| + TotalLength(xs[1..])
  }

  /** `strings.Join(xs, sep)`. */
  function Join(xs: seq<string>, sep: string): (r: string)
    // no names, no text; one name, that name; the first name always leads
    ensures xs == [] ==> r == ""
    ensures |xs| == 1 ==> r == xs[0]
    ensures |xs| >= 1 ==> xs[0] <= r
    // the names, plus one separator between each two
    ensures |r| == TotalLength(xs) + (if xs == [] then 0 else (|xs| - 1) * |sep|)
  {
    if |xs| == 0 then ""
    else if |xs| == 1 then xs[0]
    else xs[0] + sep + Join(xs[1..], sep)
  }

  /** `strings.Split(s, string(c))`: the pieces between occurrences of `c`;
      there is always at least one piece. */
  function Split(s: string, c: char): (r: seq<string>)
    ensures |r| >= 1
  {
    if s == [] then [""]
    else
      var rest := Split(s[1..], c);
      if s[0] == c then [""] + rest
      else [[s[0]] + rest[0]] + rest[1..]
  }

  lemma {:induction false} SplitWithout(s: string, c: char)
    requires c !in s
    ensures Split(s, c) == [s]
  {
    if s != [] {
      SplitWithout(s[1..], c);
      assert [s[0]] + s[1..] == s;
    }
  }

  lemma {:induction false} SplitAfter(a: string, c: char, b: string)
    requires c !in a
    ensures Split(a + [c] + b, c) == [a] + Split(b, c)
  {
    if a == [] {
      assert (a + [c] + b)[1..] == b;
    } else {
      assert (a + [c] + b)[1..] == a[1..] + [c] + b;
      SplitAfter(a[1..], c, b);
      assert [a[0]] + a[1..] == a;
    }
  }

  /** MODEL_NAMES round trip: the joined model names split back into the
      list, as long as there is at least one and none contains a comma. */
  lemma {:induction false} SplitJoin(xs: seq<string>)
    requires |xs| >= 1
    requires forall i :: 0 <= i < |xs| ==> ',' !in xs[i]
    ensures Split(Join(xs, ","), ',') == xs
  {
    if |xs| == 1 {
      SplitWithout(xs[0], ',');
    } else {
      SplitJoin(xs[1..]);
      assert xs[0] + "," + Join(xs[1..], ",") == xs[0] + [','] + Join(xs[1..], ",");
      SplitAfter(xs[0], ',', Join(xs[1..], ","));
    }
  }
}
