/**
 * The image-URL lists of the product forms: appending an uploaded URL,
 * filtering one out, and the comma-joined text the edit form submits.
 */
module ImageList {

  /** `images.filter(image => image !== url)`. */
  function Without(images: seq<string>, url: string): (r: seq<string>)
    ensures |r| <= |images|
    decreases |images|
  {
    if images == [] then []
    else
      var rest := Without(images[..|images| - 1], url);
      var last := images[|images| - 1];
      if last != url then rest + [last] else rest
  }

  /** Filtering keeps the order: it distributes over concatenation. */
  lemma {:induction false} WithoutAppend(a: seq<string>, b: seq<string>, url: string)
    ensures Without(a + b, url) == Without(a, url) + Without(b, url)
    decreases |b|
  {
    if b == [] {
      assert a + b == a;
    } else {
      var b' := b[..|b| - 1];
      assert (a + b)[..|a + b| - 1] == a + b';
      WithoutAppend(a, b', url);
    }
  }

  /**
   * Every occurrence of `url` goes, every other entry stays with its
   * multiplicity, and a list without `url` is left as it is.
   */
  lemma {:induction false} WithoutRemovesExactly(images: seq<string>, url: string)
    ensures url !in Without(images, url)
    ensures forall x :: x != url ==> multiset(Without(images, url))[x] == multiset(images)[x]
    ensures url !in images ==> Without(images, url) == images
    decreases |images|
  {
    if images != [] {
      var init := images[..|images| - 1];
      var last := images[|images| - 1];
      var rest := Without(init, url);
      WithoutRemovesExactly(init, url);
      assert images == init + [last];
      assert multiset(images) == multiset(init) + multiset{last};
      if last != url {
        assert Without(images, url) == rest + [last];
        assert multiset(rest + [last]) == multiset(rest) + multiset{last};
      } else {
        assert Without(images, url) == rest;
      }
    }
  }

  /** Removing the same URL a second time changes nothing. */
  lemma WithoutIdempotent(images: seq<string>, url: string)
    ensures Without(Without(images, url), url) == Without(images, url)
  {
    WithoutRemovesExactly(images, url);
    WithoutRemovesExactly(Without(images, url), url);
  }

  /** `images.toString()`: the entries joined with commas, `""` for the empty list. */
  function JoinComma(xs: seq<string>): string
    decreases |xs|
  {
    if |xs| == 0 then ""
    else if |xs| == 1 then xs[0]
    else JoinComma(xs[..|xs| - 1]) + "," + xs[|xs| - 1]
  }

  /** Splitting on commas, as a receiver of the joined text would: never an empty list. */
  function SplitComma(s: string): (parts: seq<string>)
    ensures |parts| >= 1
    decreases |s|
  {
    if s == [] then [""] else SplitStep(SplitComma(s[..|s| - 1]), s[|s| - 1])
  }

  /** Reading one more character: a comma opens a new part, anything else extends the last one. */
  function SplitStep(parts: seq<string>, c: char): (r: seq<string>)
    requires |parts| >= 1
    ensures |r| >= 1
  {
    if c == ',' then parts + [""]
    else parts[..|parts| - 1] + [parts[|parts| - 1] + [c]]
  }

  predicate CommaFree(w: string) {
    ',' !in w
  }

  lemma SplitSnoc(t: string, c: char)
    ensures SplitComma(t + [c]) == SplitStep(SplitComma(t), c)
  {
    assert (t + [c])[..|t|] == t;
  }

  lemma StepExtendsLast(init: seq<string>, x: string, c: char)
    requires c != ','
    ensures SplitStep(init + [x], c) == init + [x + [c]]
  {
    assert (init + [x])[..|init|] == init;
  }

  /** Appending comma-free text only extends the last part. */
  lemma {:induction false} SplitAppendCommaFree(s: string, w: string)
    requires CommaFree(w)
    ensures
      var p := SplitComma(s);
      SplitComma(s + w) == p[..|p| - 1] + [p[|p| - 1] + w]
    decreases |w|
  {
    var p := SplitComma(s);
    if w == [] {
      assert s + w == s;
      assert p[|p| - 1] + w == p[|p| - 1];
      assert p[..|p| - 1] + [p[|p| - 1]] == p;
    } else {
      var w' := w[..|w| - 1];
      var c := w[|w| - 1];
      assert w == w' + [c];
      assert c in w && CommaFree(w');
      SplitAppendCommaFree(s, w');
      assert s + w == (s + w') + [c];
      SplitSnoc(s + w', c);
      StepExtendsLast(p[..|p| - 1], p[|p| - 1] + w', c);
      assert (p[|p| - 1] + w') + [c] == p[|p| - 1] + w;
    }
  }

  lemma SplitAppendComma(s: string)
    ensures SplitComma(s + ",") == SplitComma(s) + [""]
  {
    SplitSnoc(s, ',');
  }

  /**
   * Joining then splitting gives the list back when it is non-empty and no
   * URL contains a comma.
   */
  lemma {:induction false} JoinSplitRoundTrip(xs: seq<string>)
    requires |xs| >= 1
    requires forall i :: 0 <= i < |xs| ==> CommaFree(xs[i])
    ensures SplitComma(JoinComma(xs)) == xs
    decreases |xs|
  {
    if |xs| == 1 {
      SplitAppendCommaFree("", xs[0]);
      assert "" + xs[0] == xs[0];
    } else {
      var init := xs[..|xs| - 1];
      var x := xs[|xs| - 1];
      assert CommaFree(x);
      JoinSplitRoundTrip(init);
      SplitAfterComma(JoinComma(init), x);
      assert init + [x] == xs;
    }
  }

  /** A comma followed by comma-free text adds exactly that text as a new last part. */
  lemma SplitAfterComma(j: string, x: string)
    requires CommaFree(x)
    ensures SplitComma(j + "," + x) == SplitComma(j) + [x]
  {
    SplitAppendComma(j);
    SplitAppendCommaFree(j + ",", x);
    var q := SplitComma(j);
    assert (q + [""])[..|q|] == q;
    assert "" + x == x;
  }

  /** No images and one empty URL submit the same text, `""`. */
  lemma EmptyListsJoinAlike()
    ensures JoinComma([]) == JoinComma([""])
  {
    assert JoinComma([]) == "" == JoinComma([""]);
  }

  /** A URL containing a comma comes back from the round trip as two URLs. */
  lemma CommaUrlSplits()
    ensures SplitComma(JoinComma(["a,b"])) == ["a", "b"]
  {
    JoinSplitRoundTrip(["a", "b"]);
    assert JoinComma(["a", "b"]) == "a" + "," + "b" == JoinComma(["a,b"]);
  }
}
