/** The format listing (server.js, `GET /api/formats`): the URL check, then
    the extractor's metadata reduced to the formats that carry both a video
    and an audio track. */
module Formats {
  import opened Wrappers
  import opened Numbers
  import Request

  /** A width or height as it appears in the extractor's JSON document, and
      as a template literal prints it. */
  datatype Dim = Missing | Null | Px(n: nat)

  function DimText(d: Dim): (t: string)
    ensures |t| >= 1 && 'x' !in t
  {
    match d
    case Missing => "undefined"
    case Null => "null"
    case Px(n) => NatText(n)
  }

  /** One entry of the extractor's `formats` array; an absent or null field
      is `None`. The frame rate is copied and never computed with. */
  datatype RawFormat = RawFormat(
    formatId: string,
    vcodec: Option<string>,
    acodec: Option<string>,
    resolution: Option<string>,
    width: Dim,
    height: Dim,
    fps: Option<real>,
    ext: string)

  /** One entry of the listing sent to the client. */
  datatype Entry = Entry(id: string, res: string, fps: Option<real>, ext: string)

  /** `f.vcodec !== 'none' && f.acodec !== 'none'`: an absent codec counts as present. */
  predicate Combined(f: RawFormat) {
    f.vcodec != Some("none") && f.acodec != Some("none")
  }

  /** `f.resolution || `${f.width}x${f.height}``. */
  function Resolution(f: RawFormat): (res: string)
    ensures |res| >= 1
    ensures f.resolution.Some? && f.resolution.value != "" ==> res == f.resolution.value
    ensures (f.resolution.None? || f.resolution.value == "") ==>
      exists i :: 0 <= i < |res| && res[i] == 'x' && res[..i] == DimText(f.width) && res[i + 1..] == DimText(f.height)
  {
    if f.resolution.Some? && f.resolution.value != "" then f.resolution.value
    else
      var w := DimText(f.width);
      var r := w + "x" + DimText(f.height);
      assert r[|w|] == 'x' && r[..|w|] == w && r[|w| + 1..] == DimText(f.height);
      r
  }

  function ToEntry(f: RawFormat): Entry {
    Entry(f.formatId, Resolution(f), f.fps, f.ext)
  }

  /** The filter and map over the extractor's formats. */
  function ListFormats(raw: seq<RawFormat>): (r: seq<Entry>)
    ensures |r| <= |raw|
    ensures forall i :: 0 <= i < |r| ==> |r[i].res| >= 1
  {
    if raw == [] then []
    else (if Combined(raw[0]) then [ToEntry(raw[0])] else []) + ListFormats(raw[1..])
  }

  /** The listing of a concatenation is the concatenation of the listings:
      together with the single-format case this pins the listing down as
      "the combined formats, each turned into an entry, in their order". */
  lemma {:induction false} ListFormatsAppend(a: seq<RawFormat>, b: seq<RawFormat>)
    ensures ListFormats(a + b) == ListFormats(a) + ListFormats(b)
  {
    if a == [] {
      assert a + b == b;
    } else {
      assert (a + b)[0] == a[0] && (a + b)[1..] == a[1..] + b;
      ListFormatsAppend(a[1..], b);
    }
  }

  lemma ListFormatsSingle(f: RawFormat)
    ensures ListFormats([f]) == if Combined(f) then [ToEntry(f)] else []
  {
    assert [f][1..] == [];
  }

  /** An entry is listed exactly when some combined format produces it. */
  lemma {:induction false} ListFormatsMembers(raw: seq<RawFormat>, e: Entry)
    ensures e in ListFormats(raw) <==> exists i :: 0 <= i < |raw| && Combined(raw[i]) && ToEntry(raw[i]) == e
  {
    if raw != [] {
      ListFormatsMembers(raw[1..], e);
      if e in ListFormats(raw[1..]) {
        var i :| 0 <= i < |raw[1..]| && Combined(raw[1..][i]) && ToEntry(raw[1..][i]) == e;
        assert raw[i + 1] == raw[1..][i];
      }
      if exists i :: 0 <= i < |raw| && Combined(raw[i]) && ToEntry(raw[i]) == e {
        var i :| 0 <= i < |raw| && Combined(raw[i]) && ToEntry(raw[i]) == e;
        if i > 0 {
          assert raw[1..][i - 1] == raw[i];
        }
      }
    }
  }

  /** When every format is combined, each one is listed, in order. */
  lemma {:induction false} ListFormatsAllCombined(raw: seq<RawFormat>)
    requires forall i :: 0 <= i < |raw| ==> Combined(raw[i])
    ensures |ListFormats(raw)| == |raw|
    ensures forall i :: 0 <= i < |raw| ==> ListFormats(raw)[i] == ToEntry(raw[i])
  {
    if raw != [] {
      ListFormatsAllCombined(raw[1..]);
    }
  }

  // ------------------------------------------------------------ the route

  /** What the extractor's metadata call gave back: a failure (a thrown
      error), or a document with a title and, perhaps, a formats array. */
  datatype Probe = ProbeFailed | Probed(title: string, formats: Option<seq<RawFormat>>)

  datatype Reply =
    | Status(code: nat, error: string)
    | Listing(title: string, formats: seq<Entry>)

  /** The reply of `GET /api/formats`. The probe is consulted only after the
      URL check; a missing formats array makes `.filter` throw, which the
      handler turns into a 500 like any other failure. */
  function FormatsReply(url: Option<string>, probe: Probe): (r: Reply)
    ensures r.Status? ==> r.code == 400 || r.code == 500
    ensures r.Status? && r.code == 400 <==> !Request.OkUrlQuery(url)
    ensures r.Listing? ==> probe.Probed? && probe.formats.Some? && r.title == probe.title
    ensures Request.OkUrlQuery(url) && probe.Probed? && probe.formats.Some? ==>
      r == Listing(probe.title, ListFormats(probe.formats.value))
    ensures Request.OkUrlQuery(url) && (probe.ProbeFailed? || probe.formats.None?) ==>
      r == Status(500, "gagal ambil format")
  {
    if !Request.OkUrlQuery(url) then Status(400, "url tak valid")
    else match probe
      case ProbeFailed => Status(500, "gagal ambil format")
      case Probed(title, formats) =>
        if formats.None? then Status(500, "gagal ambil format")
        else Listing(title, ListFormats(formats.value))
  }

  /** For an accepted URL and a document with a formats array, the reply
      lists exactly the entries of the combined formats, each one's entry. */
  lemma ReplyListsCombined(url: Option<string>, title: string, raw: seq<RawFormat>, e: Entry)
    requires Request.OkUrlQuery(url)
    ensures FormatsReply(url, Probed(title, Some(raw))).Listing?
    ensures e in FormatsReply(url, Probed(title, Some(raw))).formats <==>
      exists i :: 0 <= i < |raw| && Combined(raw[i]) && ToEntry(raw[i]) == e
  {
    ListFormatsMembers(raw, e);
  }

  /** A rejected URL gets the same answer whatever the extractor would have
      said: the extractor is not consulted. */
  lemma BadUrlNeverProbes(url: Option<string>, p1: Probe, p2: Probe)
    requires !Request.OkUrlQuery(url)
    ensures FormatsReply(url, p1) == FormatsReply(url, p2) == Status(400, "url tak valid")
  {
  }
}
