/**
 * data_pipeline.py: the text cleaning chain, the Jina reader URL, and the guards
 * around the Gemini embedding call. The HTTP fetch, the token splitter and the
 * embedding service itself are foreign and appear only as inputs.
 */
module DataPipeline {
  import opened Text
  import opened PyValues

  // ---------------------------------------------------------------- clean_text

  /** The argument of `clean_text`: a `str`, or any other Python object. */
  datatype TextInput = Str(s: string) | NotStr

  predicate IsSpaceOrTab(c: char) { c == ' ' || c == '\t' }

  /** The class `[\n\t ]` of the second rewrite. */
  predicate IsBreakChar(c: char) { c == '\n' || c == '\t' || c == ' ' }

  /** No space is directly followed by another space or a tab. */
  predicate NoSpaceRun(s: string)
  {
    forall k :: 0 <= k < |s| - 1 ==> !(s[k] == ' ' && IsSpaceOrTab(s[k + 1]))
  }

  lemma NoSpaceRunCons(c: char, rest: string)
    requires NoSpaceRun(rest)
    requires rest == [] || !(c == ' ' && IsSpaceOrTab(rest[0]))
    ensures NoSpaceRun([c] + rest)
  {
    var s := [c] + rest;
    forall k | 0 <= k < |s| - 1
      ensures !(s[k] == ' ' && IsSpaceOrTab(s[k + 1]))
    {
      if k > 0 {
        assert s[k] == rest[k - 1] && s[k + 1] == rest[k];
      }
    }
  }

  lemma NoSpaceRunSlice(s: string, i: nat, j: nat)
    requires NoSpaceRun(s) && i <= j <= |s|
    ensures NoSpaceRun(s[i..j])
  {
    var t := s[i..j];
    forall k | 0 <= k < |t| - 1
      ensures !(t[k] == ' ' && IsSpaceOrTab(t[k + 1]))
    {
      assert t[k] == s[i + k] && t[k + 1] == s[i + k + 1];
    }
  }

  /** First rewrite, `re.sub(r' [ \t]+', ' ', text)`: a space followed by spaces or tabs becomes one space. */
  function CollapseSpaceRuns(s: string): (r: string)
    ensures |r| <= |s|
    ensures |s| > 0 ==> |r| > 0 && r[0] == s[0]
    ensures NoSpaceRun(r)
    decreases |s|
  {
    if |s| == 0 then ""
    else if |s| >= 2 && s[0] == ' ' && IsSpaceOrTab(s[1]) then
      var rest := CollapseSpaceRuns(LStrip(s[1..], IsSpaceOrTab));
      NoSpaceRunCons(' ', rest);
      [' '] + rest
    else
      var rest := CollapseSpaceRuns(s[1..]);
      NoSpaceRunCons(s[0], rest);
      [s[0]] + rest
  }

  /** Second rewrite, `re.sub(r'\n[\n\t ]+', '\n\n', text)`: a newline followed by newlines, tabs or spaces becomes a blank line. */
  function CollapseBreakRuns(s: string): (r: string)
    ensures |r| <= |s|
    ensures |s| > 0 ==> |r| > 0 && r[0] == s[0]
    decreases |s|
  {
    if |s| == 0 then ""
    else if |s| >= 2 && s[0] == '\n' && IsBreakChar(s[1]) then
      "\n\n" + CollapseBreakRuns(LStrip(s[1..], IsBreakChar))
    else
      [s[0]] + CollapseBreakRuns(s[1..])
  }

  /** The second rewrite only writes newlines, so it cannot create a space run. */
  lemma {:induction false} CollapseBreakRunsKeepsNoSpaceRun(s: string)
    requires NoSpaceRun(s)
    ensures NoSpaceRun(CollapseBreakRuns(s))
    decreases |s|
  {
    if |s| == 0 {
    } else if |s| >= 2 && s[0] == '\n' && IsBreakChar(s[1]) {
      var t := LStrip(s[1..], IsBreakChar);
      NoSpaceRunSlice(s, 1, |s|);
      NoSpaceRunSlice(s[1..], |s| - 1 - |t|, |s| - 1);
      CollapseBreakRunsKeepsNoSpaceRun(t);
      var rest := CollapseBreakRuns(t);
      assert CollapseBreakRuns(s) == "\n\n" + rest;
      NoSpaceRunAfterNewlines(rest);
    } else {
      NoSpaceRunSlice(s, 1, |s|);
      CollapseBreakRunsKeepsNoSpaceRun(s[1..]);
      var rest := CollapseBreakRuns(s[1..]);
      assert CollapseBreakRuns(s) == [s[0]] + rest;
      if |s| >= 2 {
        assert rest[0] == s[1];
        assert !(s[0] == ' ' && IsSpaceOrTab(s[1]));
      }
      NoSpaceRunCons(s[0], rest);
    }
  }

  /** A blank line in front of a text cannot start a space run. */
  lemma NoSpaceRunAfterNewlines(rest: string)
    requires NoSpaceRun(rest)
    ensures NoSpaceRun("\n\n" + rest)
  {
    NoSpaceRunCons('\n', rest);
    NoSpaceRunCons('\n', ['\n'] + rest);
    assert "\n\n" + rest == ['\n'] + (['\n'] + rest);
  }

  /** Third rewrite, `text.replace('\r\n', '\n').replace('\r', '\n')`. */
  function NormalizeLineEndings(s: string): (r: string)
    ensures |r| <= |s|
  {
    Replace(Replace(s, "\r\n", "\n"), "\r", "\n")
  }

  /** Replacing anything by a newline cannot put a space in front of a space or a tab. */
  lemma {:induction false} ReplaceWithNewlineKeepsNoSpaceRun(s: string, target: string)
    requires target != [] && NoSpaceRun(s)
    ensures NoSpaceRun(Replace(s, target, "\n"))
    ensures |s| > 0 ==> |Replace(s, target, "\n")| > 0
    ensures |s| > 0 ==> Replace(s, target, "\n")[0] in {s[0], '\n'}
    decreases |s|
  {
    if |s| == 0 {
    } else if target <= s {
      var t := s[|target|..];
      NoSpaceRunSlice(s, |target|, |s|);
      ReplaceWithNewlineKeepsNoSpaceRun(t, target);
      NoSpaceRunCons('\n', Replace(t, target, "\n"));
    } else {
      NoSpaceRunSlice(s, 1, |s|);
      ReplaceWithNewlineKeepsNoSpaceRun(s[1..], target);
      NoSpaceRunCons(s[0], Replace(s[1..], target, "\n"));
    }
  }

  /** `clean_text(text)`: the three rewrites in source order, then `strip()`; a non-string gives "". */
  function CleanText(text: TextInput): string
  {
    match text
    case NotStr => ""
    case Str(s) => Strip(NormalizeLineEndings(CollapseBreakRuns(CollapseSpaceRuns(s))))
  }

  /**
   * What cleaning guarantees: no carriage return, no whitespace at either end,
   * no space followed by a space or a tab, and never longer than the input.
   */
  lemma CleanTextProperties(s: string)
    ensures var r := CleanText(Str(s));
      && '\r' !in r
      && (r == [] || (!IsWhitespace(r[0]) && !IsWhitespace(r[|r| - 1])))
      && NoSpaceRun(r)
      && |r| <= |s|
  {
    var a := CollapseSpaceRuns(s);
    var b := CollapseBreakRuns(a);
    var c := Replace(b, "\r\n", "\n");
    var d := Replace(c, "\r", "\n");
    CollapseBreakRunsKeepsNoSpaceRun(a);
    ReplaceWithNewlineKeepsNoSpaceRun(b, "\r\n");
    ReplaceWithNewlineKeepsNoSpaceRun(c, "\r");
    ReplaceRemovesChar(c, '\r', "\n");
    StripKeepsCleanliness(d);
  }

  /** `strip()` returns a slice, so it keeps both a missing carriage return and a missing space run. */
  lemma StripKeepsCleanliness(d: string)
    requires NoSpaceRun(d) && '\r' !in d
    ensures NoSpaceRun(Strip(d)) && '\r' !in Strip(d)
  {
    var r := StripBy(d, IsWhitespace);
    var i := StripStart(d, IsWhitespace);
    NoSpaceRunSlice(d, i, i + |r|);
    assert forall k :: 0 <= k < |r| ==> r[k] == d[i + k];
  }

  /** A non-string argument is cleaned to the empty string. */
  lemma CleanTextOfNonString()
    ensures CleanText(NotStr) == ""
  {
  }

  // ---------------------------------------------------------------- fetch_url_content

  /** config.JINA_READER_PREFIX_URL */
  const JinaReaderPrefixUrl: string := "https://r.jina.ai/"

  predicate IsSlash(c: char) { c == '/' }

  /** The URL `fetch_url_content` requests: `prefix.rstrip('/') + '/' + url.lstrip('/')`. */
  function ReaderUrl(prefix: string, url: string): string
  {
    RStrip(prefix, IsSlash) + "/" + LStrip(url, IsSlash)
  }

  /**
   * The reader URL is the prefix up to its trailing slashes, exactly one slash, then
   * the URL from its first non-slash character on: given where those two cuts fall,
   * the result is determined.
   */
  lemma ReaderUrlShape(prefix: string, url: string, i: nat, j: nat)
    requires i <= |prefix| && (i == 0 || prefix[i - 1] != '/')
    requires forall k :: i <= k < |prefix| ==> prefix[k] == '/'
    requires j <= |url| && (j == |url| || url[j] != '/')
    requires forall k :: 0 <= k < j ==> url[k] == '/'
    ensures ReaderUrl(prefix, url) == prefix[..i] + "/" + url[j..]
  {
    var base := RStrip(prefix, IsSlash);
    var path := LStrip(url, IsSlash);
    assert |base| == i;
    assert |path| == |url| - j;
  }

  /** With the configured prefix, the page URL follows "https://r.jina.ai/" with its leading slashes dropped. */
  lemma JinaReaderUrl(url: string, j: nat)
    requires j <= |url| && (j == |url| || url[j] != '/')
    requires forall k :: 0 <= k < j ==> url[k] == '/'
    ensures ReaderUrl(JinaReaderPrefixUrl, url) == "https://r.jina.ai/" + url[j..]
  {
    ReaderUrlShape(JinaReaderPrefixUrl, url, |JinaReaderPrefixUrl| - 1, j);
  }

  // ---------------------------------------------------------------- get_google_embeddings

  /** What the Gemini embedding service does when `get_google_embeddings` reaches it. */
  datatype EmbedService =
    | ConfigureFails(message: string)   // genai.configure raises
    | CallFails(message: string)        // genai.embed_content raises
    | Malformed(result: string)         // the response has no 'embedding' list; `result` is its repr
    | Embeds(vectors: seq<Vector>)      // the response's 'embedding' list

  const MissingKeyMessage: string := "Google API Key not configured"

  /**
   * `get_google_embeddings(texts, task_type)`, with the API key as a parameter ("" for a
   * missing key) and the service's behaviour as input. A count mismatch is only a warning.
   */
  function GetGoogleEmbeddings(texts: seq<string>, apiKey: string, service: EmbedService): (r: Outcome<seq<Vector>>)
  {
    if texts == [] then Returned([])
    else if apiKey == "" then Raised(Exception(ValueError, MissingKeyMessage))
    else match service
      case ConfigureFails(m) => Raised(Exception(ConnectionError, "Failed to configure genai for embeddings: " + m))
      case CallFails(m) => Raised(Exception(ServiceError, m))
      case Malformed(res) => Raised(Exception(ValueError, "Embedding API did not return expected structure. Result: " + res))
      case Embeds(vs) => Returned(vs)
  }

  /**
   * The guards of `get_google_embeddings`: an empty list returns [] whatever the key and the
   * service would do (the service is not called); a missing key raises ValueError before the
   * service is reached; a response with the wrong number of vectors is returned as it is.
   */
  lemma EmbeddingGuards(texts: seq<string>, apiKey: string, service: EmbedService, other: EmbedService)
    ensures texts == [] ==> GetGoogleEmbeddings(texts, apiKey, service) == Returned([])
    ensures texts != [] && apiKey == "" ==>
      GetGoogleEmbeddings(texts, apiKey, service) == GetGoogleEmbeddings(texts, apiKey, other) == Raised(Exception(ValueError, MissingKeyMessage))
    ensures texts != [] && apiKey != "" && service.Embeds? ==> GetGoogleEmbeddings(texts, apiKey, service) == Returned(service.vectors)
    ensures GetGoogleEmbeddings(texts, apiKey, service).Returned? <==> texts == [] || (apiKey != "" && service.Embeds?)
  {
  }
}
