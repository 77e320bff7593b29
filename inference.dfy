/** The inference client (`generate_conversation`) and the branching on its
    result in `process_screenshot`: the clipboard value, the request sent to
    the model, and the classification of what comes back. The PNG encoder
    and the service call are parameters. */
module Inference {
  import opened Wrappers
  import opened Text
  import opened PyValue

  const ModelId: string := "amazon.nova-lite-v1:0"

  /** The fixed instruction sent with every image. */
  const Prompt: string :=
    "Analyze this image and provide a detailed response in markdown format including:\n" +
    "            1. Description of visual elements\n" +
    "            2. Analysis of content\n" +
    "            3. Key insights or findings\n" +
    "\n" +
    "            Use appropriate markdown formatting (headers, lists, code blocks, etc.)"

  /** A decoded bitmap. */
  datatype Image = Image(width: nat, height: nat, pixels: seq<bv8>)

  /** What `ImageGrab.grabclipboard()` returns: nothing, an image, or (when
      files were copied) a list of file names. */
  datatype Clipboard = Empty | Bitmap(image: Image) | FileNames(names: seq<string>)

  /** `if img:` — an image is always true, a list only when non-empty. */
  predicate Truthy(c: Clipboard) {
    c.Bitmap? || (c.FileNames? && c.names != [])
  }

  /** `input_image.save(buffer, format="PNG")`: the PNG bytes, or `str(error)`
      of the exception it raises. */
  type PngEncoder = Image -> Result<seq<bv8>, string>

  datatype Request = Request(modelId: string, messages: seq<Value>)

  /** `bedrock_client.converse(...)`: the response dict, or `str(error)` of the
      exception it raises. */
  type Converse = Request -> Result<map<string, Value>, string>

  function ImageBlock(png: seq<bv8>): Value {
    PyDict(map["image" := PyDict(map["format" := PyStr("png"), "source" := PyDict(map["bytes" := PyBytes(png)])])])
  }

  function TextBlock(text: string): Value {
    PyDict(map["text" := PyStr(text)])
  }

  /** The single user message: the image block, then the text block. */
  function UserMessage(png: seq<bv8>, text: string): Value {
    PyDict(map["role" := PyStr("user"), "content" := PyList([ImageBlock(png), TextBlock(text)])])
  }

  /** The message `str(error)` gives when `.save` is called on a list. */
  const ListHasNoSave: string := "'list' object has no attribute 'save'"
  const NoneHasNoSave: string := "'NoneType' object has no attribute 'save'"

  /** Encoding the clipboard value and building the request; a failure
      carries the text of the exception. */
  function EncodeRequest(clip: Clipboard, text: string, encode: PngEncoder): (r: Result<Request, string>)
    ensures r.Success? ==> clip.Bitmap?
  {
    match clip
    case Empty => Failure(NoneHasNoSave)
    case FileNames(_) => Failure(ListHasNoSave)
    case Bitmap(img) =>
      match encode(img)
      case Failure(cause) => Failure(cause)
      case Success(png) => Success(Request(ModelId, [UserMessage(png, text)]))
  }

  const ErrorPrefix: string := "Error processing image: "

  /** `generate_conversation`: the response dict, or the string
      "Error processing image: " followed by the cause; never both. */
  function GenerateConversation(clip: Clipboard, text: string, encode: PngEncoder, converse: Converse): (r: Value)
    ensures r.PyDict? || r.PyStr?
    ensures r.PyDict? <==> EncodeRequest(clip, text, encode).Success? &&
                           converse(EncodeRequest(clip, text, encode).value).Success?
    ensures r.PyDict? ==> r.entries == converse(EncodeRequest(clip, text, encode).value).value
    ensures r.PyStr? ==> StartsWith(r.s, ErrorPrefix)
  {
    match EncodeRequest(clip, text, encode)
    case Failure(cause) => PyStr(ErrorPrefix + cause)
    case Success(request) =>
      match converse(request)
      case Failure(cause) => PyStr(ErrorPrefix + cause)
      case Success(response) => PyDict(response)
  }

  /** The request names the model and carries one message, read the way
      the service reads it: from the user, its content the PNG image first
      and the prompt second, and nothing after them. */
  lemma RequestShape(clip: Clipboard, text: string, encode: PngEncoder)
    requires EncodeRequest(clip, text, encode).Success?
    ensures var q := EncodeRequest(clip, text, encode).value;
            var png := encode(clip.image).value;
            && q.modelId == ModelId && |q.messages| == 1
            && Lookup(q.messages[0], [KStr("role")]) == Success(PyStr("user"))
            && Lookup(q.messages[0], [KStr("content"), KInt(0), KStr("image"), KStr("format")]) == Success(PyStr("png"))
            && Lookup(q.messages[0], [KStr("content"), KInt(0), KStr("image"), KStr("source"), KStr("bytes")]) == Success(PyBytes(png))
            && Lookup(q.messages[0], [KStr("content"), KInt(1), KStr("text")]) == Success(PyStr(text))
            && Lookup(q.messages[0], [KStr("content"), KInt(2)]).Failure?
  {
    var png := encode(clip.image).value;
    MessageShape(png, text);
    ImageComesFirst(png, text);
    TextComesSecond(png, text);
  }

  /** One subscript followed by the rest of a path. */
  lemma LookupStep(v: Value, k: Key, rest: seq<Key>, w: Value)
    requires Subscript(v, k) == Success(w)
    ensures Lookup(v, [k] + rest) == Lookup(w, rest)
  {
    assert ([k] + rest)[1..] == rest;
  }

  /** The message comes from the user and its content list holds the image
      block, the text block and nothing else. */
  lemma MessageShape(png: seq<bv8>, text: string)
    ensures Lookup(UserMessage(png, text), [KStr("role")]) == Success(PyStr("user"))
    ensures Lookup(UserMessage(png, text), [KStr("content")]) == Success(PyList([ImageBlock(png), TextBlock(text)]))
    ensures Lookup(UserMessage(png, text), [KStr("content"), KInt(2)]) == Failure(IndexError("list index out of range"))
  {
    var m := UserMessage(png, text);
    var content := PyList([ImageBlock(png), TextBlock(text)]);
    assert Subscript(m, KStr("role")) == Success(PyStr("user"));
    LookupStep(m, KStr("role"), [], PyStr("user"));
    assert Subscript(m, KStr("content")) == Success(content);
    LookupStep(m, KStr("content"), [], content);
    assert Subscript(content, KInt(2)) == Failure(IndexError("list index out of range"));
    LookupStep(m, KStr("content"), [KInt(2)], content);
  }

  /** The first part is the image: format "png" and the encoded bytes, and
      no text. */
  lemma ImageComesFirst(png: seq<bv8>, text: string)
    ensures Lookup(UserMessage(png, text), [KStr("content"), KInt(0), KStr("image"), KStr("format")]) == Success(PyStr("png"))
    ensures Lookup(UserMessage(png, text), [KStr("content"), KInt(0), KStr("image"), KStr("source"), KStr("bytes")]) == Success(PyBytes(png))
    ensures Lookup(UserMessage(png, text), [KStr("content"), KInt(0), KStr("text")]) == Failure(KeyError(KStr("text")))
  {
    var m := UserMessage(png, text);
    var content := PyList([ImageBlock(png), TextBlock(text)]);
    assert Subscript(m, KStr("content")) == Success(content);
    assert Subscript(content, KInt(0)) == Success(ImageBlock(png));
    ImageBlockShape(png);
    LookupStep(content, KInt(0), [KStr("image"), KStr("format")], ImageBlock(png));
    LookupStep(m, KStr("content"), [KInt(0), KStr("image"), KStr("format")], content);
    LookupStep(content, KInt(0), [KStr("image"), KStr("source"), KStr("bytes")], ImageBlock(png));
    LookupStep(m, KStr("content"), [KInt(0), KStr("image"), KStr("source"), KStr("bytes")], content);
    LookupStep(content, KInt(0), [KStr("text")], ImageBlock(png));
    LookupStep(m, KStr("content"), [KInt(0), KStr("text")], content);
  }

  lemma ImageBlockShape(png: seq<bv8>)
    ensures Lookup(ImageBlock(png), [KStr("image"), KStr("format")]) == Success(PyStr("png"))
    ensures Lookup(ImageBlock(png), [KStr("image"), KStr("source"), KStr("bytes")]) == Success(PyBytes(png))
    ensures Lookup(ImageBlock(png), [KStr("text")]) == Failure(KeyError(KStr("text")))
  {
    var image := ImageBlock(png).entries["image"];
    var source := image.entries["source"];
    assert Subscript(ImageBlock(png), KStr("image")) == Success(image);
    assert Subscript(image, KStr("format")) == Success(PyStr("png"));
    assert Subscript(image, KStr("source")) == Success(source);
    assert Subscript(source, KStr("bytes")) == Success(PyBytes(png));
    LookupStep(image, KStr("format"), [], PyStr("png"));
    LookupStep(ImageBlock(png), KStr("image"), [KStr("format")], image);
    LookupStep(source, KStr("bytes"), [], PyBytes(png));
    LookupStep(image, KStr("source"), [KStr("bytes")], source);
    LookupStep(ImageBlock(png), KStr("image"), [KStr("source"), KStr("bytes")], image);
  }

  /** The second part is the text. */
  lemma TextComesSecond(png: seq<bv8>, text: string)
    ensures Lookup(UserMessage(png, text), [KStr("content"), KInt(1), KStr("text")]) == Success(PyStr(text))
  {
    var m := UserMessage(png, text);
    var content := PyList([ImageBlock(png), TextBlock(text)]);
    assert Subscript(m, KStr("content")) == Success(content);
    assert Subscript(content, KInt(1)) == Success(TextBlock(text));
    assert Subscript(TextBlock(text), KStr("text")) == Success(PyStr(text));
    LookupStep(TextBlock(text), KStr("text"), [], PyStr(text));
    LookupStep(content, KInt(1), [KStr("text")], TextBlock(text));
    LookupStep(m, KStr("content"), [KInt(1), KStr("text")], content);
  }

  // ------------------------------------------------------ response handling

  /** `response["output"]["message"]["content"][0]["text"]`. */
  const ResponsePath: seq<Key> := [KStr("output"), KStr("message"), KStr("content"), KInt(0), KStr("text")]

  /** The terminal outcome of `process_screenshot`. */
  datatype Outcome =
    | NoImage                  // nothing usable on the clipboard
    | ServiceError(text: string) // the error string, printed as it is
    | ParseError(error: PyError) // KeyError or IndexError on the path, caught
    | Uncaught(error: PyError)   // a TypeError, which nothing catches
    | Answer(markdown: string)   // the text to render

  /** How `process_screenshot` treats the value `generate_conversation`
      returned. A text value that is not a string reaches the converter,
      which raises `TypeError` for it. */
  function Classify(response: Value): (o: Outcome)
    requires response.PyDict? || response.PyStr?
    ensures !o.NoImage?
    ensures o.ParseError? ==> o.error.KeyError? || o.error.IndexError?
    ensures o.Uncaught? ==> o.error.TypeError?
  {
    if !response.PyDict? then ServiceError(response.s)
    else match Lookup(response, ResponsePath)
      case Success(PyStr(t)) => Answer(t)
      case Success(_) => Uncaught(TypeError)
      case Failure(TypeError) => Uncaught(TypeError)
      case Failure(e) => ParseError(e)
  }

  /** An independent reading of a well-formed envelope: nested dicts down to
      a non-empty content list whose first element is a dict holding the
      text under "text". */
  predicate TextAt(response: Value, t: string) {
    && response.PyDict? && "output" in response.entries
    && var output := response.entries["output"];
    && output.PyDict? && "message" in output.entries
    && var message := output.entries["message"];
    && message.PyDict? && "content" in message.entries
    && var content := message.entries["content"];
    && content.PyList? && |content.items| > 0
    && var first := content.items[0];
    && first.PyDict? && "text" in first.entries && first.entries["text"] == PyStr(t)
  }

  /** Classification yields the text exactly when the envelope has that
      shape. */
  lemma AnswerExactlyWhenWellFormed(response: Value, t: string)
    requires response.PyDict? || response.PyStr?
    ensures Classify(response) == Answer(t) <==> TextAt(response, t)
  {
    if response.PyDict? {
      UnfoldResponsePath(response);
    }
  }

  /** The five subscripts of the response path, one at a time. */
  lemma UnfoldResponsePath(response: Value)
    ensures Lookup(response, ResponsePath) ==
      match Subscript(response, KStr("output"))
      case Failure(e) => Failure(e)
      case Success(output) =>
        match Subscript(output, KStr("message"))
        case Failure(e) => Failure(e)
        case Success(message) =>
          match Subscript(message, KStr("content"))
          case Failure(e) => Failure(e)
          case Success(content) =>
            match Subscript(content, KInt(0))
            case Failure(e) => Failure(e)
            case Success(first) => Subscript(first, KStr("text"))
  {
    var p := ResponsePath;
    assert p[1..] == [KStr("message"), KStr("content"), KInt(0), KStr("text")];
    assert p[2..] == [KStr("content"), KInt(0), KStr("text")];
    assert p[3..] == [KInt(0), KStr("text")];
    assert p[4..] == [KStr("text")];
  }

  /** The error string is the only non-dict result and always gives the
      service-error outcome; a dict never does. */
  lemma ServiceErrorExactlyForStrings(response: Value)
    requires response.PyDict? || response.PyStr?
    ensures Classify(response).ServiceError? <==> !response.PyDict?
    ensures Classify(response).ServiceError? ==> Classify(response).text == response.s
  {
  }

  /** A missing key anywhere on the path, or an empty content list, is a
      parse error naming what was missing. */
  lemma MissingPartIsParseError(response: Value)
    requires response.PyDict?
    ensures "output" !in response.entries ==> Classify(response) == ParseError(KeyError(KStr("output")))
    ensures "output" in response.entries && response.entries["output"].PyDict? ==>
      var output := response.entries["output"];
      && ("message" !in output.entries ==> Classify(response) == ParseError(KeyError(KStr("message"))))
      && ("message" in output.entries && output.entries["message"].PyDict? ==>
        var message := output.entries["message"];
        && ("content" !in message.entries ==> Classify(response) == ParseError(KeyError(KStr("content"))))
        && ("content" in message.entries && message.entries["content"] == PyList([]) ==>
              Classify(response) == ParseError(IndexError("list index out of range")))
        && ("content" in message.entries && message.entries["content"].PyList? &&
            |message.entries["content"].items| > 0 && message.entries["content"].items[0].PyDict? &&
            "text" !in message.entries["content"].items[0].entries ==>
              Classify(response) == ParseError(KeyError(KStr("text")))))
  {
    UnfoldResponsePath(response);
  }

  /** `process_screenshot`'s outcome for a clipboard value. */
  function ProcessOutcome(clip: Clipboard, encode: PngEncoder, converse: Converse): Outcome {
    if !Truthy(clip) then NoImage
    else Classify(GenerateConversation(clip, Prompt, encode, converse))
  }

  /** The text rendered is the one at the envelope path of the service's own
      reply to the request built from the clipboard, and only then is there
      an answer. */
  lemma AnswerIsReplyText(clip: Clipboard, encode: PngEncoder, converse: Converse, t: string)
    ensures ProcessOutcome(clip, encode, converse) == Answer(t) <==>
              && Truthy(clip) && EncodeRequest(clip, Prompt, encode).Success?
              && converse(EncodeRequest(clip, Prompt, encode).value).Success?
              && TextAt(PyDict(converse(EncodeRequest(clip, Prompt, encode).value).value), t)
  {
    if Truthy(clip) {
      AnswerExactlyWhenWellFormed(GenerateConversation(clip, Prompt, encode, converse), t);
    }
  }

  /** A failed encoding or service call, and a clipboard holding a list of
      file names, all end in the printed "Error processing image: ..." text. */
  lemma TransportFailures(clip: Clipboard, encode: PngEncoder, converse: Converse)
    ensures clip.FileNames? && clip.names != [] ==>
              ProcessOutcome(clip, encode, converse) == ServiceError(ErrorPrefix + ListHasNoSave)
    ensures clip.Bitmap? && encode(clip.image).Failure? ==>
              ProcessOutcome(clip, encode, converse) == ServiceError(ErrorPrefix + encode(clip.image).error)
    ensures clip.Bitmap? && encode(clip.image).Success? &&
            converse(Request(ModelId, [UserMessage(encode(clip.image).value, Prompt)])).Failure? ==>
              ProcessOutcome(clip, encode, converse) ==
                ServiceError(ErrorPrefix + converse(Request(ModelId, [UserMessage(encode(clip.image).value, Prompt)])).error)
  {
  }
}
