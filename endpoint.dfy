/** Request URLs: a fixed host and API version followed by a resource path.
    Building a URL is total; nothing is validated or escaped. */
module Endpoints {
  import opened Ints

  const Host := "https://hacker-news.firebaseio.com"
  const Version := "v0"

  /** Everything `build` writes in front of its argument. */
  const Root := Host + "/" + Version + "/"

  /** `Endpoint::build`: the root, then the argument verbatim. */
  function Build(arg: string): (url: string)
    ensures |url| == |Root| + |arg|
    ensures url[..|Root|] == Root
    ensures url[|Root|..] == arg
  {
    Host + "/" + Version + "/" + arg
  }

  /** Distinct arguments give distinct URLs. */
  lemma BuildInjective(a: string, b: string)
    ensures Build(a) == Build(b) <==> a == b
  {
  }

  // ---- decimal rendering of an id, as `format!("{}", id)` writes a `u64` ----

  predicate IsDigits(s: string) {
    forall i :: 0 <= i < |s| ==> '0' <= s[i] <= '9'
  }

  function DigitChar(d: nat): (c: char)
    requires d < 10
    ensures '0' <= c <= '9'
  {
    (d + '0' as int) as char
  }

  /** The decimal digits of `n`, most significant first, without leading zeros. */
  function Decimal(n: nat): (s: string)
    ensures |s| > 0 && IsDigits(s)
    ensures s[0] == '0' ==> n == 0
    ensures |s| > 1 ==> s[0] != '0'
    decreases n
  {
    if n < 10 then [DigitChar(n)] else Decimal(n / 10) + [DigitChar(n % 10)]
  }

  /** The number a string of decimal digits denotes. */
  function DigitsValue(s: string): nat
    requires IsDigits(s)
    decreases |s|
  {
    if s == [] then 0 else DigitsValue(s[..|s| - 1]) * 10 + (s[|s| - 1] as int - '0' as int)
  }

  /** Reading the rendered digits back gives the number: the rendering loses nothing. */
  lemma {:induction false} DecimalRoundTrip(n: nat)
    ensures DigitsValue(Decimal(n)) == n
    decreases n
  {
    if n >= 10 {
      DecimalRoundTrip(n / 10);
      var s := Decimal(n);
      assert s[..|s| - 1] == Decimal(n / 10);
    }
  }

  // ---- the resource URLs ----

  /** `Endpoint::item`: "item/" and the id's decimal rendering, from which the id can be
      read back, so distinct ids give distinct URLs. */
  function Item(id: U64): (url: string)
    ensures |url| > |Root| + 5
    ensures url[..|Root|] == Root && url[|Root|..|Root| + 5] == "item/"
    ensures url[|Root| + 5..] == Decimal(id)
    ensures IsDigits(url[|Root| + 5..]) && DigitsValue(url[|Root| + 5..]) == id
  {
    DecimalRoundTrip(id);
    var url := Build("item/" + Decimal(id));
    assert url[|Root| + 5..] == url[|Root|..][5..] == Decimal(id);
    url
  }

  lemma ItemInjective(a: U64, b: U64)
    ensures Item(a) == Item(b) <==> a == b
  {
  }

  /** `Endpoint::user`: the name follows "user/" verbatim, even when it is empty. */
  function User(name: string): (url: string)
    ensures |url| == |Root| + 5 + |name|
    ensures url[..|Root|] == Root && url[|Root|..|Root| + 5] == "user/"
    ensures url[|Root| + 5..] == name
  {
    Build("user/" + name)
  }

  lemma UserInjective(a: string, b: string)
    ensures User(a) == User(b) <==> a == b
  {
  }

  /** No item URL is a user URL. */
  lemma ItemIsNotUser(id: U64, name: string)
    ensures Item(id) != User(name)
  {
    assert Item(id)[|Root|] == 'i';
    assert User(name)[|Root|] == 'u';
  }

  function MaxItem(): string { Build("maxitem") }
  function TopStories(): string { Build("topstories") }
  function NewStories(): string { Build("newstories") }
  function BestStories(): string { Build("beststories") }
  function AskStories(): string { Build("askstories") }
  function ShowStories(): string { Build("showstories") }
  function Updates(): string { Build("updates") }

  /** The seven list endpoints, in the order they are declared. */
  function ListEndpoints(): seq<string> {
    [MaxItem(), TopStories(), NewStories(), BestStories(), AskStories(), ShowStories(), Updates()]
  }

  /** The list endpoints are pairwise distinct and none of them is an item or a user URL. */
  lemma ListEndpointsDistinct(id: U64, name: string)
    ensures forall i, j :: 0 <= i < j < |ListEndpoints()| ==> ListEndpoints()[i] != ListEndpoints()[j]
    ensures forall i :: 0 <= i < |ListEndpoints()| ==> ListEndpoints()[i] != Item(id) && ListEndpoints()[i] != User(name)
  {
    var names := ["maxitem", "topstories", "newstories", "beststories", "askstories", "showstories", "updates"];
    forall i | 0 <= i < |names|
      ensures ListEndpoints()[i] == Build(names[i])
    {
    }
    forall i, j | 0 <= i < j < |names|
      ensures names[i] != names[j]
    {
    }
    forall i | 0 <= i < |names|
      ensures ListEndpoints()[i] != Item(id) && ListEndpoints()[i] != User(name)
    {
      assert ListEndpoints()[i][|Root|..] == names[i];
      assert Item(id)[|Root|..][..5] == "item/";
      assert User(name)[|Root|..][..5] == "user/";
      assert names[i][4] != '/';
    }
  }
}
