/**
 * The extraction client (`InvoiceProcessor`): the image string sent to the
 * model, the clean-up of the model's reply before `JSON.parse`, the error
 * wrapping, and the component's file/processing/result/error state.
 * The model call and `JSON.parse` are foreign: their answers are parameters.
 */
module InvoiceProcessor {
  import opened Wrappers
  import opened JsStrings

  /** The first index of `c` in `s`, if any. */
  function IndexOf(s: string, c: char): (r: Option<nat>)
    ensures r.None? ==> c !in s
    ensures r.Some? ==> r.value < |s| && s[r.value] == c && c !in s[..r.value]
  {
    if |s| == 0 then None
    else if s[0] == c then Some(0)
    else
      match IndexOf(s[1..], c)
      case None => None
      case Some(i) =>
        assert s[..i + 1] == [s[0]] + s[1..][..i];
        Some(i + 1)
  }

  /** `s.split(',')[1]`: the text between the first comma and the next one (or the end); None when there is no comma. */
  function SecondPiece(s: string): Option<string> {
    match IndexOf(s, ',')
    case None => None
    case Some(i) =>
      var rest := s[i + 1..];
      match IndexOf(rest, ',')
      case None => Some(rest)
      case Some(j) => Some(rest[..j])
  }

  /** `base64Image.split(',')[1] || base64Image`: the data-URL prefix removed, if there is one. */
  function ImagePayload(s: string): string {
    match SecondPiece(s)
    case Some(p) => if p != "" then p else s
    case None => s
  }

  /**
   * The second piece of a string with a comma: comma-free, starting right
   * after the first comma and ending at the next comma or at the end.
   */
  lemma SecondPieceSpec(s: string, i: nat)
    requires IndexOf(s, ',') == Some(i)
    ensures SecondPiece(s).Some?
    ensures var p := SecondPiece(s).value;
      && ',' !in p && i + 1 + |p| <= |s| && p == s[i + 1..i + 1 + |p|]
      && (i + 1 + |p| == |s| || s[i + 1 + |p|] == ',')
  {
    var rest := s[i + 1..];
    match IndexOf(rest, ',')
    case None =>
      assert SecondPiece(s) == Some(rest);
    case Some(j) =>
      assert SecondPiece(s) == Some(rest[..j]);
      assert rest[..j] == s[i + 1..i + 1 + j];
  }

  /**
   * What is sent: the whole string, or a non-empty, comma-free piece that
   * starts right after the first comma and ends at the next comma or at the
   * end of the string.
   */
  lemma {:induction false} ImagePayloadSpec(s: string)
    ensures ',' !in s ==> ImagePayload(s) == s
    ensures ',' in s ==>
      var i := IndexOf(s, ',').value;
      var r := ImagePayload(s);
      || (r != "" && ',' !in r && i + 1 + |r| <= |s| && r == s[i + 1..i + 1 + |r|]
          && (i + 1 + |r| == |s| || s[i + 1 + |r|] == ','))
      || (r == s && (i + 1 == |s| || s[i + 1] == ','))
  {
    if ',' in s {
      var i := IndexOf(s, ',').value;
      SecondPieceSpec(s, i);
      var p := SecondPiece(s).value;
      if p == "" {
        assert ImagePayload(s) == s;
        assert i + 1 + |p| == i + 1;
      } else {
        assert ImagePayload(s) == p;
      }
    }
  }

  /** A data URL `data:image/jpeg;base64,<data>` yields its base64 data. */
  lemma ImagePayloadOfDataUrl(prefix: string, data: string, url: string)
    requires ',' !in prefix && ',' !in data && data != ""
    requires url == prefix + [','] + data
    ensures ImagePayload(url) == data
  {
    assert url[|prefix|] == ',';
    assert url[..|prefix|] == prefix;
    assert IndexOf(url, ',') == Some(|prefix|);
    assert url[|prefix| + 1..] == data;
  }

  /**
   * `text.replace(/```json\n?|\n?```/g, '')`: scanning from the left, at
   * each position the first alternative is tried first ("```json" and an
   * optional newline), then the second (an optional newline and "```");
   * a character where neither matches is kept.
   */
  function StripFences(s: string): (r: string)
    decreases |s|
  {
    if |s| == 0 then []
    else if OpensJsonFence(s) then
      if |s| >= 8 && s[7] == '\n' then StripFences(s[8..]) else StripFences(s[7..])
    else if |s| >= 4 && s[0] == '\n' && OpensFence(s[1..]) then StripFences(s[4..])
    else if OpensFence(s) then StripFences(s[3..])
    else [s[0]] + StripFences(s[1..])
  }

  /** `s` starts with three backticks. */
  predicate OpensFence(s: string) {
    |s| >= 3 && s[0] == '`' && s[1] == '`' && s[2] == '`'
  }

  /** `s` starts with "```json". */
  predicate OpensJsonFence(s: string) {
    OpensFence(s) && |s| >= 7 && s[3] == 'j' && s[4] == 's' && s[5] == 'o' && s[6] == 'n'
  }

  /** The reply text handed to `JSON.parse`. */
  function CleanReply(text: string): string {
    Trim(StripFences(text))
  }

  /** Removing fences only ever removes characters. */
  lemma {:induction false} StripFencesShrinks(s: string)
    ensures |StripFences(s)| <= |s|
    decreases |s|
  {
    if |s| == 0 {
    } else if OpensJsonFence(s) {
      if |s| >= 8 && s[7] == '\n' { StripFencesShrinks(s[8..]); } else { StripFencesShrinks(s[7..]); }
    } else if |s| >= 4 && s[0] == '\n' && OpensFence(s[1..]) {
      StripFencesShrinks(s[4..]);
    } else if OpensFence(s) {
      StripFencesShrinks(s[3..]);
    } else {
      StripFencesShrinks(s[1..]);
    }
  }

  /** Text without a backtick has no fence to remove. */
  lemma {:induction false} StripFencesWithoutBacktick(s: string)
    requires '`' !in s
    ensures StripFences(s) == s
    decreases |s|
  {
    if |s| > 0 {
      assert s[0] != '`' && (|s| > 1 ==> s[1] != '`');
      StripFencesWithoutBacktick(s[1..]);
      assert s == [s[0]] + s[1..];
    }
  }

  /** For a reply without a backtick, the clean-up is a plain `trim`. */
  lemma CleanReplyWithoutBacktick(text: string)
    requires '`' !in text
    ensures CleanReply(text) == Trim(text)
  {
    StripFencesWithoutBacktick(text);
  }

  /** A payload without backticks followed by a closing fence: the fence and its newline go. */
  lemma {:induction false} StripClosingFence(p: string, s: string)
    requires '`' !in p && s == p + "\n```"
    ensures StripFences(s) == p
    decreases |p|
  {
    if |p| == 0 {
      assert s[0] == '\n' && OpensFence(s[1..]);
      assert s[4..] == [];
    } else {
      assert s[0] == p[0] && p[0] != '`';
      assert s[1] == (if |p| > 1 then p[1] else '\n');
      StripClosingFence(p[1..], s[1..]);
      assert p == [p[0]] + p[1..];
    }
  }

  /** The fenced reply the prompt asks for is reduced to the trimmed payload. */
  lemma FencedReply(p: string, text: string)
    requires '`' !in p && text == "```json\n" + p + "\n```"
    ensures StripFences(text) == p
    ensures CleanReply(text) == Trim(p)
  {
    assert OpensJsonFence(text) && text[7] == '\n';
    StripClosingFence(p, text[8..]);
  }

  /**
   * The order of the alternatives matters: a newline in front of an opening
   * fence is taken by the second alternative together with the backticks,
   * so the word "json" stays in the text handed to `JSON.parse`:
   * "\n```json\n{}\n```" is cleaned to "json\n{}".
   */
  lemma NewlineBeforeOpeningFence(text: string, rest: string, p: string)
    requires p == "json\n{}" && rest == p + "\n```" && text == "\n```" + rest
    ensures CleanReply(text) == p
  {
    assert text[0] == '\n' && OpensFence(text[1..]) && text[4..] == rest;
    assert StripFences(text) == StripFences(rest);
    StripClosingFence(p, rest);
    assert !IsWhiteSpace(p[0]) && !IsWhiteSpace(p[|p| - 1]);
    TrimKeepsInnerText(p);
  }

  const ErrorPrefix := "Failed to process invoice: "

  /**
   * A foreign call seen from the model: the answer it gives for each input
   * listed in `answers`, and `otherwise` for every other input. One run of
   * the component calls each service once, so a table is enough to
   * describe any run.
   */
  datatype Service<A> = Service(answers: map<string, A>, otherwise: A) {
    function Call(x: string): (r: A)
      ensures x in answers ==> r == answers[x]
      ensures x !in answers ==> r == otherwise
    {
      if x in answers then answers[x] else otherwise
    }
  }

  /**
   * `processInvoice`: send the image payload to the model (`send`), clean
   * the reply and parse it (`parse`, standing for `JSON.parse`); any
   * failure is rethrown with the message prefixed by
   * "Failed to process invoice: ".
   */
  function ProcessInvoice<V>(base64Image: string, send: Service<Result<string, string>>,
                             parse: Service<Result<V, string>>): Result<V, string>
  {
    match send.Call(ImagePayload(base64Image))
    case Failure(m) => Failure(ErrorPrefix + m)
    case Success(text) =>
      match parse.Call(CleanReply(text))
      case Failure(m) => Failure(ErrorPrefix + m)
      case Success(v) => Success(v)
  }

  /**
   * Success exactly when the model answers and its cleaned answer parses,
   * and then the value is the parsed one; a failure of either step is
   * reported with the prefix in front of that step's own message.
   */
  lemma ProcessInvoiceOutcome<V>(base64Image: string, send: Service<Result<string, string>>,
                                 parse: Service<Result<V, string>>)
    ensures var reply := send.Call(ImagePayload(base64Image));
      var r := ProcessInvoice(base64Image, send, parse);
      && (reply.Failure? ==> r == Failure(ErrorPrefix + reply.error))
      && (reply.Success? && parse.Call(CleanReply(reply.value)).Failure? ==>
            r == Failure(ErrorPrefix + parse.Call(CleanReply(reply.value)).error))
      && (r.Success? <==> reply.Success? && parse.Call(CleanReply(reply.value)).Success?)
      && (r.Success? ==> r.value == parse.Call(CleanReply(reply.value)).value)
      && (r.Failure? ==> ErrorPrefix <= r.error)
  {
  }

  /**
   * End to end: a data URL is sent without its prefix, and when the model
   * answers with the fenced JSON block the prompt asks for, exactly the
   * trimmed payload inside the fence is handed to `JSON.parse`.
   */
  lemma FencedAnswerIsParsed<V>(prefix: string, data: string, url: string, p: string, answer: string,
                                send: Service<Result<string, string>>, parse: Service<Result<V, string>>)
    requires ',' !in prefix && ',' !in data && data != "" && url == prefix + [','] + data
    requires '`' !in p && answer == "```json\n" + p + "\n```"
    requires send.Call(data) == Success(answer)
    ensures parse.Call(Trim(p)).Success? ==> ProcessInvoice(url, send, parse) == parse.Call(Trim(p))
    ensures parse.Call(Trim(p)).Failure? ==>
      ProcessInvoice(url, send, parse) == Failure(ErrorPrefix + parse.Call(Trim(p)).error)
  {
    ImagePayloadOfDataUrl(prefix, data, url);
    FencedReply(p, answer);
  }

  /** A file picked in the file input: its name and the data URL `FileReader` produces for it. */
  datatype ImageFile = ImageFile(name: string, dataUrl: string)

  /** The processor component's state; `V` is the type of the parsed reply. */
  class InvoiceProcessor<V> {
    var selectedFile: Option<ImageFile>
    var processing: bool
    var result: Option<V>
    var error: Option<string>
    var preview: Option<string>

    constructor ()
      ensures selectedFile == None && !processing && result == None && error == None && preview == None
    {
      selectedFile, processing, result, error, preview := None, false, None, None, None;
    }

    /**
     * `handleFileSelect`: the first chosen file becomes the selection and
     * clears the previous result and error; its data URL becomes the
     * preview once read. An empty choice changes nothing.
     */
    method HandleFileSelect(files: seq<ImageFile>)
      modifies this
      ensures |files| == 0 ==> unchanged(this)
      ensures |files| > 0 ==>
        && selectedFile == Some(files[0]) && result == None && error == None
        && preview == Some(files[0].dataUrl) && processing == old(processing)
    {
      if |files| > 0 {
        var file := files[0];
        selectedFile := Some(file);
        result := None;
        error := None;
        preview := Some(file.dataUrl);
      }
    }

    /**
     * The `onloadend` callback once `processInvoice` has settled: the parsed
     * value becomes the result, or the message becomes the error and the
     * result is cleared; either way processing ends.
     */
    method Settle(outcome: Result<V, string>)
      modifies this`processing, this`result, this`error
      ensures !processing
      ensures outcome.Success? ==> result == Some(outcome.value) && error == old(error)
      ensures outcome.Failure? ==> result == None && error == Some(outcome.error)
    {
      if outcome.Success? {
        result := Some(outcome.value);
      } else {
        error := Some(outcome.error);
        result := None;
      }
      processing := false;
    }

    /**
     * `handleProcess`: without a selected file nothing happens; otherwise
     * processing starts with the error cleared, the file's data URL goes
     * through `ProcessInvoice`, and at the end `processing` is false with
     * either the parsed value in `result` or the message in `error`.
     */
    method HandleProcess(send: Service<Result<string, string>>, parse: Service<Result<V, string>>)
      modifies this
      ensures old(selectedFile).None? ==> unchanged(this)
      ensures old(selectedFile).Some? ==>
        var r := ProcessInvoice(old(selectedFile).value.dataUrl, send, parse);
        && !processing && selectedFile == old(selectedFile) && preview == old(preview)
        && (r.Success? ==> result == Some(r.value) && error == None)
        && (r.Failure? ==> result == None && error == Some(r.error))
    {
      if selectedFile.Some? {
        processing := true;
        error := None;
        Settle(ProcessInvoice(selectedFile.value.dataUrl, send, parse));
      }
    }
  }
}
