/** Validation of the request's query values and the values derived from them
    before the extractor is started: the URL scheme check, the extractor's
    argument object, the default file name, the content type and the
    `Content-Disposition` header (server.js, `okURL` and `doDownload`). */
module Request {
  import opened Wrappers

  /** `audio === '1'`: only the exact text "1" asks for audio. */
  predicate IsAudio(audio: Option<string>) {
    audio == Some("1")
  }

  /** JavaScript truthiness of a query value: present and not empty. */
  predicate Truthy(v: Option<string>) {
    v.Some? && v.value != ""
  }

  // ---------------------------------------------------------------- okURL

  /** ASCII case folding, the only folding the regular expression's `i` flag
      applies to the letters of "https" when the `u` flag is absent. */
  function Lower(c: char): char {
    if 'A' <= c <= 'Z' then (c as int + 32) as char else c
  }

  /** The pattern `/^https?:\/\//i`, read left to right: "http", an optional
      "s", then "://", with the letters matched without regard to case. */
  predicate OkUrl(u: string) {
    && |u| >= 7
    && Lower(u[0]) == 'h' && Lower(u[1]) == 't' && Lower(u[2]) == 't' && Lower(u[3]) == 'p'
    && var rest := if Lower(u[4]) == 's' then u[5..] else u[4..];
       |rest| >= 3 && rest[..3] == "://"
  }

  /** `RegExp.prototype.test` turns an absent value into the text "undefined". */
  function QueryText(v: Option<string>): string {
    if v.Some? then v.value else "undefined"
  }

  predicate OkUrlQuery(u: Option<string>) {
    OkUrl(QueryText(u))
  }

  predicate EqualIgnoringCase(a: string, b: string) {
    |a| == |b| && forall i :: 0 <= i < |a| ==> Lower(a[i]) == Lower(b[i])
  }

  predicate StartsIgnoringCase(u: string, prefix: string) {
    |u| >= |prefix| && EqualIgnoringCase(u[..|prefix|], prefix)
  }

  /** The scheme check holds exactly for text that starts with "http://" or
      "https://" in any mix of upper and lower case. */
  lemma OkUrlIsSchemePrefix(u: string)
    ensures OkUrl(u) <==> StartsIgnoringCase(u, "http://") || StartsIgnoringCase(u, "https://")
  {
    if StartsIgnoringCase(u, "http://") {
      assert Lower(u[4]) == ':' && u[4] == ':';
      assert u[4..][..3] == "://" by {
        assert Lower(u[5]) == '/' && Lower(u[6]) == '/';
      }
    }
    if StartsIgnoringCase(u, "https://") {
      assert u[5..][..3] == "://" by {
        assert Lower(u[5]) == ':' && Lower(u[6]) == '/' && Lower(u[7]) == '/';
      }
    }
    if OkUrl(u) {
      if Lower(u[4]) == 's' {
        assert u[5..8] == u[5..][..3];
        assert EqualIgnoringCase(u[..8], "https://");
      } else {
        assert u[4..7] == u[4..][..3];
        assert EqualIgnoringCase(u[..7], "http://");
      }
    }
  }

  /** An absent `url` never passes. */
  lemma AbsentUrlRejected()
    ensures !OkUrlQuery(None)
  {
    assert QueryText(None)[0] == 'u';
  }

  // ------------------------------------------------------ extractor args

  datatype ArgValue = Flag(on: bool) | Text(text: string) | Number(n: int)

  /** The option object handed to the extractor, key by key. */
  type Args = map<string, ArgValue>

  /** Stream to standard output, a single video, progress lines on stderr. */
  const BaseArgs: Args :=
    map["output" := Text("-"), "no-playlist" := Flag(true), "progress" := Flag(true)]

  /** Extract the audio track as MP3 at the best quality. */
  const AudioArgs: Args :=
    map["extractAudio" := Flag(true), "audioFormat" := Text("mp3"), "audioQuality" := Number(0)]

  /** A selector that already combines streams is kept; a single format id is
      paired with the best audio, falling back to the best single file. */
  function FormatSelector(fmt: string): (sel: string)
    ensures '+' in sel
    ensures '+' in fmt ==> sel == fmt
    ensures '+' !in fmt ==> |sel| == |fmt| + 15 && sel[..|fmt|] == fmt && sel[|fmt|..] == "+bestaudio/best"
  {
    if '+' in fmt then fmt else fmt + "+bestaudio/best"
  }

  /** The argument object after the branch in `doDownload`. */
  function ExtractorArgs(fmt: Option<string>, audio: Option<string>): (args: Args)
    ensures forall k :: k in BaseArgs ==> k in args && args[k] == BaseArgs[k]
    ensures IsAudio(audio) ==>
      args.Keys == BaseArgs.Keys + AudioArgs.Keys && forall k :: k in AudioArgs ==> args[k] == AudioArgs[k]
    ensures !IsAudio(audio) && Truthy(fmt) ==>
      args.Keys == BaseArgs.Keys + {"format"} && args["format"] == Text(FormatSelector(fmt.value))
    ensures !IsAudio(audio) && !Truthy(fmt) ==> args == BaseArgs
  {
    if IsAudio(audio) then
      assert "format" !in AudioArgs && BaseArgs.Keys !! AudioArgs.Keys;
      BaseArgs + AudioArgs
    else if Truthy(fmt) then
      assert "format" !in BaseArgs;
      BaseArgs["format" := Text(FormatSelector(fmt.value))]
    else BaseArgs
  }

  /** The argument object built as the server builds it: the base object, then
      `Object.assign` of the audio options or an assignment of `format`. */
  method BuildArgs(fmt: Option<string>, audio: Option<string>) returns (args: Args)
    ensures args == ExtractorArgs(fmt, audio)
  {
    args := map["output" := Text("-")];
    args := args["no-playlist" := Flag(true)];
    args := args["progress" := Flag(true)];
    assert args == BaseArgs;
    if IsAudio(audio) {
      args := args["extractAudio" := Flag(true)];
      args := args["audioFormat" := Text("mp3")];
      args := args["audioQuality" := Number(0)];
      assert args == BaseArgs + AudioArgs;
    } else if Truthy(fmt) {
      var f := fmt.value;
      if '+' in f {
        args := args["format" := Text(f)];
      } else {
        args := args["format" := Text(f + "+bestaudio/best")];
      }
      assert args == BaseArgs["format" := Text(FormatSelector(f))];
    }
  }

  /** With the audio flag set, the `fmt` value has no influence at all. */
  lemma AudioIgnoresFormat(fmt1: Option<string>, fmt2: Option<string>, audio: Option<string>)
    requires IsAudio(audio)
    ensures ExtractorArgs(fmt1, audio) == ExtractorArgs(fmt2, audio)
    ensures "format" !in ExtractorArgs(fmt1, audio)
  {
  }

  // ------------------------------------------- file name and content type

  function DefaultFilename(audio: Option<string>): (name: string)
    ensures name == "audio.mp3" <==> IsAudio(audio)
    ensures name == "video.mp4" <==> !IsAudio(audio)
  {
    if IsAudio(audio) then "audio.mp3" else "video.mp4"
  }

  function ContentType(audio: Option<string>): (ct: string)
    ensures ct == "audio/mpeg" <==> IsAudio(audio)
    ensures ct == "application/octet-stream" <==> !IsAudio(audio)
  {
    if IsAudio(audio) then "audio/mpeg" else "application/octet-stream"
  }

  /** The file name and the content type agree: an MP3 name goes with the
      audio type, an MP4 name with the generic binary type. */
  lemma FilenameMatchesContentType(audio: Option<string>)
    ensures DefaultFilename(audio)[|DefaultFilename(audio)| - 4..] == ".mp3" <==> ContentType(audio) == "audio/mpeg"
  {
  }

  // ------------------------------------------------- Content-Disposition

  /** `filename.replace(/"/g, '')`. */
  function StripQuotes(s: string): (r: string)
    ensures '"' !in r
    ensures |r| <= |s|
  {
    if s == [] then []
    else if s[0] == '"' then StripQuotes(s[1..])
    else [s[0]] + StripQuotes(s[1..])
  }

  /** r can be obtained from s by deleting characters. */
  predicate IsSubsequence(r: string, s: string)
    decreases |s|
  {
    if r == [] then true
    else if s == [] then false
    else if r[0] == s[0] then IsSubsequence(r[1..], s[1..])
    else IsSubsequence(r, s[1..])
  }

  /** Stripping deletes the double quotes and only them, keeping the order of
      everything else. */
  lemma {:induction false} StripQuotesDeletesOnlyQuotes(s: string)
    ensures IsSubsequence(StripQuotes(s), s)
    ensures forall c :: c != '"' ==> multiset(StripQuotes(s))[c] == multiset(s)[c]
  {
    if s != [] {
      StripQuotesDeletesOnlyQuotes(s[1..]);
      assert s == [s[0]] + s[1..];
      if s[0] != '"' {
        assert StripQuotes(s)[1..] == StripQuotes(s[1..]);
      }
    }
  }

  lemma {:induction false} StripQuotesKeepsQuoteFree(s: string)
    requires '"' !in s
    ensures StripQuotes(s) == s
  {
    if s != [] {
      assert s[0] != '"';
      StripQuotesKeepsQuoteFree(s[1..]);
    }
  }

  lemma StripQuotesIdempotent(s: string)
    ensures StripQuotes(StripQuotes(s)) == StripQuotes(s)
  {
    StripQuotesKeepsQuoteFree(StripQuotes(s));
  }

  lemma {:induction false} StripQuotesAppend(a: string, b: string)
    ensures StripQuotes(a + b) == StripQuotes(a) + StripQuotes(b)
  {
    if a == [] {
      assert a + b == b;
    } else {
      assert (a + b)[0] == a[0] && (a + b)[1..] == a[1..] + b;
      StripQuotesAppend(a[1..], b);
    }
  }

  const DispositionPrefix := "attachment; filename=\""

  /** `attachment; filename="<name without double quotes>"`. */
  function Disposition(filename: string): string {
    DispositionPrefix + StripQuotes(filename) + "\""
  }

  /** Reading the file name back out of a disposition value: the text between
      the opening quote and the closing one, provided there is no other quote. */
  function DispositionName(h: string): (r: Option<string>)
    ensures r.Some? ==> '"' !in r.value
  {
    var n := |DispositionPrefix|;
    if |h| > n && h[..n] == DispositionPrefix && h[|h| - 1] == '"' && '"' !in h[n..|h| - 1] then
      Some(h[n..|h| - 1])
    else
      None
  }

  /** The header always has exactly one name in it, and it is the stored name
      with its double quotes removed. */
  lemma DispositionRoundTrip(filename: string)
    ensures DispositionName(Disposition(filename)) == Some(StripQuotes(filename))
  {
    var h := Disposition(filename);
    var n := |DispositionPrefix|;
    assert h[..n] == DispositionPrefix;
    assert h[n..|h| - 1] == StripQuotes(filename);
  }

  datatype Headers = Headers(disposition: string, contentType: string)

  /** The two headers `res.set` gives the download response. */
  function ResponseHeaders(filename: string, audio: Option<string>): (h: Headers)
    ensures DispositionName(h.disposition) == Some(StripQuotes(filename))
    ensures h.contentType == ContentType(audio)
  {
    DispositionRoundTrip(filename);
    Headers(Disposition(filename), ContentType(audio))
  }
}
