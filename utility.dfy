/**
 * The pure parts of the bot's helpers (Utility.cs): the element emoji, the
 * format and fallback of the generated roll name, and the fallback of the
 * image URL. The HTTP requests themselves are inputs: a `Fetch` is what a
 * request produced.
 */
module Utility {
  import opened Wrappers
  import opened Models

  /** The outcome of an outbound request: its parsed payload, or an `HttpRequestException`. */
  datatype Fetch<T> = Response(body: T) | RequestFailed

  const DefaultImageUrl := "https://example.com/default-image.jpg"
  const DefaultName := "DEFAULT NAME"

  /**
   * The image URL taken from the image API's reply, given the reply's `url`
   * field: the field when present, the default URL otherwise. The result is
   * empty only when the API sent an empty `url`.
   */
  function GetChar(url: Option<string>): (r: string)
    ensures url.Some? ==> r == url.value
    ensures url.None? ==> r == DefaultImageUrl
    ensures r == "" <==> url == Some("")
  {
    if url.Some? then url.value else DefaultImageUrl
  }

  /** Upper-casing of one character; only the ASCII letters are mapped. */
  function UpperChar(c: char): char {
    if 'a' <= c <= 'z' then (c as int - 32) as char else c
  }

  predicate IsLowerAscii(c: char) {
    'a' <= c <= 'z'
  }

  /** `string.ToUpper()`, character by character. */
  function ToUpper(s: string): (r: string)
    ensures |r| == |s|
    ensures forall i :: 0 <= i < |s| ==> r[i] == UpperChar(s[i])
  {
    seq(|s|, i requires 0 <= i < |s| => UpperChar(s[i]))
  }

  /**
   * The roll name: the upper-cased adjective, one space, the upper-cased noun;
   * `"DEFAULT NAME"` when a request failed.
   */
  function GetRandomRollName(words: Fetch<(string, string)>): (r: string)
    ensures words.RequestFailed? ==> r == DefaultName
    ensures words.Response? ==> |r| == |words.body.0| + 1 + |words.body.1|
    ensures words.Response? ==> r[|words.body.0|] == ' '
    ensures forall i :: 0 <= i < |r| ==> !IsLowerAscii(r[i])
  {
    match words
    case Response((adjective, noun)) => ToUpper(adjective) + " " + ToUpper(noun)
    case RequestFailed => DefaultName
  }

  /** Upper-casing a string that has no lower-case letter changes nothing. */
  lemma UpperIdentity(s: string)
    requires forall i :: 0 <= i < |s| ==> !IsLowerAscii(s[i])
    ensures ToUpper(s) == s
  {
  }

  /** The upper-casing applied again when rolls are listed leaves a stored name as it is. */
  lemma DisplayedNameUnchanged(words: Fetch<(string, string)>)
    ensures ToUpper(GetRandomRollName(words)) == GetRandomRollName(words)
  {
    UpperIdentity(GetRandomRollName(words));
  }

  /** The index of the first space, or |s| when there is none. */
  function FirstSpace(s: string): (k: nat)
    ensures k <= |s|
    ensures k < |s| ==> s[k] == ' '
    ensures forall i :: 0 <= i < k ==> s[i] != ' '
  {
    if s == [] then 0 else if s[0] == ' ' then 0 else 1 + FirstSpace(s[1..])
  }

  /** Splits a name at its first space. */
  function SplitAtSpace(s: string): (r: Option<(string, string)>)
    ensures r.Some? ==> s == r.value.0 + " " + r.value.1 && ' ' !in r.value.0
  {
    var k := FirstSpace(s);
    if k < |s| then Some((s[..k], s[k + 1..])) else None
  }

  /** A name built from an adjective without spaces splits back into the two upper-cased words. */
  lemma {:induction false} RollNameSplits(adjective: string, noun: string)
    requires ' ' !in adjective
    ensures SplitAtSpace(GetRandomRollName(Response((adjective, noun)))) == Some((ToUpper(adjective), ToUpper(noun)))
  {
    var name := GetRandomRollName(Response((adjective, noun)));
    var upper := ToUpper(adjective);
    assert name == upper + " " + ToUpper(noun);
    forall i | 0 <= i < |upper|
      ensures name[i] != ' '
    {
      assert adjective[i] in adjective;
      assert name[i] == UpperChar(adjective[i]);
    }
    assert name[|upper|] == ' ';
    assert FirstSpace(name) == |upper|;
    assert name[..|upper|] == upper;
    assert name[|upper| + 1..] == ToUpper(noun);
  }

  /** The emoji shown for an element. */
  function GetElementEmoji(element: Element): (r: string)
    ensures r != ""
  {
    match element
    case Water => "\U{1F4A7}"
    case Fire => "\U{1F525}"
    case Grass => "\U{1F343}"
  }

  /** Distinct elements are shown with distinct emojis. */
  lemma EmojiInjective(a: Element, b: Element)
    ensures GetElementEmoji(a) == GetElementEmoji(b) ==> a == b
  {
  }
}
