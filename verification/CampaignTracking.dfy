/** What a campaign adds to its e-mails for tracking: marked links and pixel images. */
module CampaignTracking {
  import opened Wrappers
  import opened Text
  import opened LinkTracking

  const MAX_TRACKING_PIXELS := 10
  const MAX_PIXEL_URL_LEN := 2048

  const IMAGE_OPEN: string := "<img src=\""
  const IMAGE_CLOSE: string := "\"" + IMAGE_STYLE
  const IMAGE_STYLE: string :=
    " width=\"1\" height=\"1\" alt=\"\" style=\"display:block;width:1px;height:1px;border:0;\" />"

  datatype Tracking = Tracking(links: bool, pixels: seq<string>, replies: bool)

  datatype Error = TooManyPixels | InvalidPixel(url: string)

  function Image(pixel: string): string {
    IMAGE_OPEN + pixel + IMAGE_CLOSE
  }

  function Images(pixels: seq<string>): string {
    if pixels == [] then "" else Images(pixels[..|pixels| - 1]) + Image(pixels[|pixels| - 1])
  }

  function Applied(t: Tracking, body: string): string {
    (if t.links then Track(body) else body) + Images(t.pixels)
  }

  lemma NoImages()
    ensures Images([]) == ""
  {
  }

  lemma ImagesNext(pixels: seq<string>, i: nat)
    requires i < |pixels|
    ensures Images(pixels[..i + 1]) == Images(pixels[..i]) + Image(pixels[i])
  {
    assert pixels[..i + 1][..i] == pixels[..i];
  }

  /** Between two cuts of out, and nothing else there, is the image of the pixel. */
  predicate ImageAt(pixel: string, out: string, cuts: seq<nat>, i: nat)
    requires i + 1 < |cuts|
  {
    cuts[i] <= cuts[i + 1] <= |out| && out[cuts[i]..cuts[i + 1]] == "<img src=\"" + pixel + "\"" + IMAGE_STYLE
  }

  /**
   out is a tracked body and then, from one cut to the next, an image for each
   pixel in order. With links on, the tracked body is the body with marks put in
   front of quotes, has no link left to mark, and is the body if that had none;
   with links off it is the body.
   */
  ghost predicate AppliedAs(t: Tracking, body: string, out: string, cuts: seq<nat>) {
    && |cuts| == |t.pixels| + 1 && cuts[|t.pixels|] == |out|
    && (forall i :: 0 <= i < |t.pixels| ==> ImageAt(t.pixels[i], out, cuts, i))
    && cuts[0] <= |out|
    && var tracked := out[..cuts[0]];
       if t.links
       then Inserts(body, tracked) && AllTracked(true, tracked) && (AllTracked(true, body) ==> tracked == body)
       else tracked == body
  }

  lemma TrackedAs(t: Tracking, body: string)
    requires t.pixels == []
    ensures AppliedAs(t, body, Applied(t, body), [|Applied(t, body)|])
  {
    TrackOnlyInserts(true, body);
    TracksEveryLink(true, body);
    TrackFixes(true, body);
    var out := Applied(t, body);
    NoImages();
    hide AllTracked, Inserts, TrackFrom;
    assert out == if t.links then Track(body) else body;
    assert out[..|out|] == out;
  }

  lemma ImageStays(pixel: string, out: string, cuts: seq<nat>, i: nat, more: string, cut: nat)
    requires i + 1 < |cuts| && ImageAt(pixel, out, cuts, i) && out <= more
    ensures ImageAt(pixel, more, cuts + [cut], i)
  {
    assert more[cuts[i]..cuts[i + 1]] == out[cuts[i]..cuts[i + 1]];
  }

  lemma NewImage(pixel: string, out: string, cuts: seq<nat>)
    requires cuts != [] && cuts[|cuts| - 1] == |out|
    ensures ImageAt(pixel, out + Image(pixel), cuts + [|out + Image(pixel)|], |cuts| - 1)
  {
    assert (out + Image(pixel))[|out|..] == Image(pixel);
    assert Image(pixel) == IMAGE_OPEN + pixel + "\"" + IMAGE_STYLE;
  }

  lemma ImageAdded(t: Tracking, u: Tracking, body: string, out: string, cuts: seq<nat>, pixel: string)
    requires AppliedAs(t, body, out, cuts) && u == t.(pixels := t.pixels + [pixel])
    ensures AppliedAs(u, body, out + Image(pixel), cuts + [|out + Image(pixel)|])
  {
    hide AllTracked, Inserts, ImageAt;
    var more, cut := out + Image(pixel), |out + Image(pixel)|;
    assert more[..cuts[0]] == out[..cuts[0]];
    forall i | 0 <= i < |u.pixels|
      ensures ImageAt(u.pixels[i], more, cuts + [cut], i)
    {
      if i < |t.pixels| {
        ImageStays(t.pixels[i], out, cuts, i, more, cut);
      } else {
        NewImage(pixel, out, cuts);
      }
    }
  }

  lemma {:induction false} AppliedExact(t: Tracking, body: string) returns (cuts: seq<nat>)
    ensures AppliedAs(t, body, Applied(t, body), cuts)
    decreases |t.pixels|
  {
    hide AppliedAs, Image, Track;
    if t.pixels == [] {
      TrackedAs(t, body);
      cuts := [|Applied(t, body)|];
    } else {
      var n := |t.pixels| - 1;
      var fewer := t.(pixels := t.pixels[..n]);
      var front := AppliedExact(fewer, body);
      var tracked := if t.links then Track(body) else body;
      assert fewer.pixels + [t.pixels[n]] == t.pixels;
      ImageAdded(fewer, t, body, Applied(fewer, body), front, t.pixels[n]);
      assert tracked + (Images(fewer.pixels) + Image(t.pixels[n])) == Applied(fewer, body) + Image(t.pixels[n]);
      cuts := front + [|Applied(t, body)|];
    }
  }

  lemma AppliedSimple(t: Tracking, body: string, out: string, cuts: seq<nat>)
    requires AppliedAs(t, body, out, cuts) && t.pixels == []
    ensures if t.links then AllTracked(true, out) else out == body
  {
    hide AllTracked, Inserts;
    assert out[..|out|] == out;
  }

  lemma AppliedSomehow(t: Tracking, body: string)
    ensures exists cuts :: AppliedAs(t, body, Applied(t, body), cuts)
    ensures t.pixels == [] ==> if t.links then AllTracked(true, Applied(t, body)) else Applied(t, body) == body
  {
    var cuts := AppliedExact(t, body);
    hide AppliedAs, AllTracked;
    if t.pixels == [] {
      AppliedSimple(t, body, Applied(t, body), cuts);
    }
  }

  method Apply(t: Tracking, body: string) returns (out: string)
    ensures out == Applied(t, body)
    ensures !t.links && t.pixels == [] ==> out == body
    ensures t.links && t.pixels == [] ==> AllTracked(true, out)
    ensures exists cuts :: AppliedAs(t, body, out, cuts)
  {
    NoImages();
    AppliedSomehow(t, body);
    hide Image, Images, Track, AppliedAs, AllTracked;
    out := body;
    if t.links {
      out := Track(out);
    }
    if |t.pixels| > 0 {
      ghost var tracked := out;
      for i := 0 to |t.pixels|
        invariant out == tracked + Images(t.pixels[..i])
      {
        ImagesNext(t.pixels, i);
        out := out + Image(t.pixels[i]);
        assert out == tracked + (Images(t.pixels[..i]) + Image(t.pixels[i]));
      }
      assert t.pixels[..|t.pixels|] == t.pixels;
    }
  }

  /** Applying the tracking again changes nothing exactly when it adds no pixels. */
  lemma ApplyTwice(t: Tracking, body: string)
    ensures Applied(t, Applied(t, body)) == Applied(t, body) <==> t.pixels == []
  {
    if t.pixels == [] {
      TrackIdempotent(body);
      assert Track(body) + "" == Track(body) && Track(Track(body)) + "" == Track(Track(body));
      assert body + "" == body;
    } else {
      TrackFixes(true, Applied(t, body));
    }
  }

  /** The trimmed pixels, without empty ones and repetitions. */
  function NormalPixels(pixels: seq<string>): seq<string> {
    if pixels == [] then []
    else
      var kept := NormalPixels(pixels[..|pixels| - 1]);
      var p := TrimSpace(pixels[|pixels| - 1]);
      if p == "" || p in kept then kept else kept + [p]
  }

  method Normalized(t: Tracking) returns (out: Tracking)
    ensures out == t.(pixels := NormalPixels(t.pixels))
  {
    var kept: seq<string> := [];
    var seen: map<string, bool> := map[];
    for i := 0 to |t.pixels|
      invariant kept == NormalPixels(t.pixels[..i])
      invariant forall p :: p in seen <==> p in kept
      invariant forall p :: p in seen ==> seen[p]
    {
      assert t.pixels[..i + 1][..i] == t.pixels[..i];
      var p := TrimSpace(t.pixels[i]);
      if p == "" || (p in seen && seen[p]) {
        continue;
      }
      seen := seen[p := true];
      kept := kept + [p];
    }
    assert t.pixels[..|t.pixels|] == t.pixels;
    out := Tracking(t.links, kept, t.replies);
  }

  /** Trimmed, not empty, and none twice. */
  ghost predicate Normal(pixels: seq<string>) {
    && (forall k :: 0 <= k < |pixels| ==> pixels[k] != "" && TrimSpace(pixels[k]) == pixels[k])
    && (forall j, k :: 0 <= j < k < |pixels| ==> pixels[j] != pixels[k])
  }

  ghost predicate Comes(pixels: seq<string>, p: string) {
    exists k :: 0 <= k < |pixels| && TrimSpace(pixels[k]) == p
  }

  /** Exactly the trimmed non-empty pixels are kept, once each, and what comes later never disturbs the order. */
  lemma {:induction false} NormalizedKeeps(pixels: seq<string>)
    ensures Normal(NormalPixels(pixels))
    ensures forall p :: p in NormalPixels(pixels) <==> p != "" && Comes(pixels, p)
    ensures forall n :: 0 <= n <= |pixels| ==> NormalPixels(pixels[..n]) <= NormalPixels(pixels)
  {
    if pixels != [] {
      hide TrimSpace, Normal, Comes;
      var n := |pixels| - 1;
      var kept := NormalPixels(pixels[..n]);
      NormalizedKeeps(pixels[..n]);
      TrimSpaceStable(pixels[n]);
      KeepOneMore(kept, TrimSpace(pixels[n]));
      forall p
        ensures p in NormalPixels(pixels) <==> p != "" && Comes(pixels, p)
      {
        ComesNext(pixels, p);
      }
      forall i | 0 <= i <= |pixels|
        ensures NormalPixels(pixels[..i]) <= NormalPixels(pixels)
      {
        assert pixels[..i] == if i <= n then pixels[..n][..i] else pixels;
      }
    }
  }

  lemma KeepOneMore(kept: seq<string>, p: string)
    requires Normal(kept) && TrimSpace(p) == p
    ensures p != "" && p !in kept ==> Normal(kept + [p])
  {
  }

  lemma ComesNext(pixels: seq<string>, p: string)
    requires pixels != []
    ensures Comes(pixels, p) <==> Comes(pixels[..|pixels| - 1], p) || TrimSpace(pixels[|pixels| - 1]) == p
  {
  }

  /** A list is left alone exactly when it is already trimmed, non-empty and free of repetitions. */
  lemma {:induction false} NormalizedFixes(pixels: seq<string>)
    ensures NormalPixels(pixels) == pixels <==> Normal(pixels)
    ensures |NormalPixels(pixels)| <= |pixels|
  {
    NormalizedKeeps(pixels);
    if pixels != [] {
      var n := |pixels| - 1;
      NormalizedFixes(pixels[..n]);
      NormalizedKeeps(pixels[..n]);
      assert pixels == pixels[..n] + [pixels[n]];
      if Normal(pixels) {
        assert Normal(pixels[..n]);
        assert pixels[n] !in pixels[..n];
      }
    }
  }

  lemma NormalizedTwice(pixels: seq<string>)
    ensures NormalPixels(NormalPixels(pixels)) == NormalPixels(pixels)
  {
    NormalizedKeeps(pixels);
    NormalizedFixes(NormalPixels(pixels));
  }

  /** How many bytes a character takes in UTF-8. */
  function Bytes(c: char): nat {
    if c as int < 0x80 then 1 else if c as int < 0x800 then 2 else if c as int < 0x10000 then 3 else 4
  }

  function ByteLength(s: string): nat {
    if s == "" then 0 else ByteLength(s[..|s| - 1]) + Bytes(s[|s| - 1])
  }

  predicate IsPixelURL(p: string) {
    && ByteLength(p) <= MAX_PIXEL_URL_LEN
    && (("http://" <= p && IsPixelTail(p[7..])) || ("https://" <= p && IsPixelTail(p[8..])))
  }

  predicate IsPixelTail(s: string) {
    s != "" && forall k :: 0 <= k < |s| ==> !IsBlank(s[k]) && !IsQuote(s[k]) && s[k] != '<' && s[k] != '>'
  }

  /** The UTF-8 encoding of a character. */
  function UTF8(c: char): seq<int> {
    var n := c as int;
    if n < 0x80 then [n]
    else if n < 0x800 then [0xC0 + n / 0x40, 0x80 + n % 0x40]
    else if n < 0x1_0000 then [0xE0 + n / 0x40 / 0x40, 0x80 + n / 0x40 % 0x40, 0x80 + n % 0x40]
    else [0xF0 + n / 0x40 / 0x40 / 0x40, 0x80 + n / 0x40 / 0x40 % 0x40, 0x80 + n / 0x40 % 0x40, 0x80 + n % 0x40]
  }

  function Encoded(s: string): seq<int> {
    if s == "" then [] else Encoded(s[..|s| - 1]) + UTF8(s[|s| - 1])
  }

  /** The length is that of the text in UTF-8, whose leading bytes tell how many follow them. */
  lemma {:induction false} ByteLengthExact(s: string)
    ensures ByteLength(s) == |Encoded(s)|
  {
    if s != "" {
      ByteLengthExact(s[..|s| - 1]);
    }
  }

  /** What the bytes of a character stand for; the first one tells how many they are. */
  function Decoded(b: seq<int>): int
    requires b != [] && |b| == if b[0] < 0x80 then 1 else if b[0] < 0xE0 then 2 else if b[0] < 0xF0 then 3 else 4
  {
    if b[0] < 0x80 then b[0]
    else if b[0] < 0xE0 then Follow(b[0] - 0xC0, b[1])
    else if b[0] < 0xF0 then Follow(Follow(b[0] - 0xE0, b[1]), b[2])
    else Follow(Follow(Follow(b[0] - 0xF0, b[1]), b[2]), b[3])
  }

  function Follow(n: int, byte: int): int {
    n * 0x40 + byte - 0x80
  }

  lemma Sextet(n: nat)
    ensures Follow(n / 0x40, 0x80 + n % 0x40) == n
  {
  }

  lemma UTF8Decodes(c: char)
    ensures var b := UTF8(c);
      && |b| == (if b[0] < 0x80 then 1 else if b[0] < 0xE0 then 2 else if b[0] < 0xF0 then 3 else 4)
      && Decoded(b) == c as int && forall k :: 0 <= k < |b| ==> 0 <= b[k] < 0x100
  {
    var n := c as int;
    Sextet(n);
    Sextet(n / 0x40);
    Sextet(n / 0x40 / 0x40);
    hide Follow;
  }

  predicate PlainAfter(p: string, scheme: string) {
    scheme < p && forall k :: |scheme| <= k < |p| ==> p[k] !in BLANKS && p[k] !in QUOTES && p[k] !in "<>"
  }

  /** A pixel URL, letter by letter: the expression's scheme and at least one character it allows. */
  lemma PixelURLExact(p: string)
    ensures IsPixelURL(p) <==> |Encoded(p)| <= 2048 && (PlainAfter(p, "http://") || PlainAfter(p, "https://"))
  {
    ByteLengthExact(p);
    hide ByteLength, Encoded;
    if "http://" <= p {
      PlainExact(p, "http://");
    }
    if "https://" <= p {
      PlainExact(p, "https://");
    }
    assert PlainAfter(p, "http://") ==> "http://" <= p;
    assert PlainAfter(p, "https://") ==> "https://" <= p;
    hide IsPixelTail, PlainAfter;
  }

  lemma PlainExact(p: string, scheme: string)
    requires scheme <= p
    ensures PlainAfter(p, scheme) <==> IsPixelTail(p[|scheme|..])
  {
    assert forall k :: |scheme| <= k < |p| ==> p[k] == p[|scheme|..][k - |scheme|];
  }

  method Validate(t: Tracking) returns (r: Result<(), Error>)
    ensures r.Ok? <==> |t.pixels| <= MAX_TRACKING_PIXELS && forall p :: p in t.pixels ==> IsPixelURL(p)
    ensures r == Err(TooManyPixels) <==> |t.pixels| > MAX_TRACKING_PIXELS
    ensures r.Err? && r.error.InvalidPixel? ==>
      exists k :: 0 <= k < |t.pixels| && r.error.url == t.pixels[k] && !IsPixelURL(t.pixels[k])
        && forall j :: 0 <= j < k ==> IsPixelURL(t.pixels[j])
  {
    if |t.pixels| > MAX_TRACKING_PIXELS {
      return Err(TooManyPixels);
    }
    for i := 0 to |t.pixels|
      invariant forall j :: 0 <= j < i ==> IsPixelURL(t.pixels[j])
    {
      if !IsPixelURL(t.pixels[i]) {
        return Err(InvalidPixel(t.pixels[i]));
      }
    }
    return Ok(());
  }

  /** A validated pixel stays inside its src attribute: the first quote after it opens is the one that closes it. */
  lemma PixelStaysQuoted(p: string)
    requires IsPixelURL(p)
    ensures var s := Image(p); var a := |IMAGE_OPEN|;
      && s[a - 1] == '"' && s[a + |p|] == '"' && s[a..a + |p|] == p
      && forall k :: a <= k < a + |p| ==> !IsQuote(s[k]) && s[k] != '<' && s[k] != '>' && !IsBlank(s[k])
  {
    var s, a := Image(p), |IMAGE_OPEN|;
    PixelURLExact(p);
    assert IMAGE_OPEN[a - 1] == '"' && IMAGE_CLOSE[0] == '"';
    assert s[a + |p|] == IMAGE_CLOSE[0] && s[a..a + |p|] == p;
    assert "http://"[0] == 'h' && "https://"[0] == 'h';
    hide IsPixelURL, Encoded;
    forall k | a <= k < a + |p| ensures s[k] == p[k - a] {}
    PixelIsPlain(p);
  }

  lemma PixelIsPlain(p: string)
    requires PlainAfter(p, "http://") || PlainAfter(p, "https://")
    ensures forall k :: 0 <= k < |p| ==> !IsQuote(p[k]) && p[k] != '<' && p[k] != '>' && !IsBlank(p[k])
  {
    forall k | 0 <= k < |p|
      ensures !IsQuote(p[k]) && p[k] != '<' && p[k] != '>' && !IsBlank(p[k])
    {
      if PlainAfter(p, "http://") {
        assert p[..7] == "http://";
        assert k < 7 ==> p[k] == "http://"[k];
      } else {
        assert p[..8] == "https://";
        assert k < 8 ==> p[k] == "https://"[k];
      }
    }
  }
}
