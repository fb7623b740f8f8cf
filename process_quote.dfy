/** Quote extraction (`POST /api/process-quote`): an uploaded quote (deviz)
    is downloaded, sent to Gemini with the retry policy of `Retry` at a
    2000 ms back-off base, and the extracted items are stored as pending
    quote items; the quote is then marked processed.

    The environment, the storage download, the Gemini call, `JSON.parse`
    and the item insert are oracles passed in. */
module ProcessQuote {
  import opened Common
  import opened Retry

  const PdfMime: string := "application/pdf"

  const JpegMime: string := "image/jpeg"

  const MissingKeyMessage: string := "Hiányzik a Google API Kulcs! Ellenőrizd a .env.local fájlt."

  const MissingFileMessage: string := "Fájl nem található"

  const EmptyReplyMessage: string := "Az AI nem adott vissza eredményt."

  /** An item as the model extracted it; every field may be missing. */
  datatype ExtractedItem = ExtractedItem(description: Option<string>, quantity: Option<real>,
                                         unit: Option<string>, unitPrice: Option<real>)

  /** The parsed reply: `items` when it is an array, None otherwise. */
  datatype ParsedReply = ParsedReply(items: Option<seq<ExtractedItem>>)

  /** A `quote_items` row. */
  datatype QuoteItemRow = QuoteItemRow(quoteId: string, rawText: Option<string>, quantity: real, unit: string,
                                       devizUnitPrice: real, status: string)

  datatype Response = Success | Failure(message: string)

  /** What the route did besides answering: whether it downloaded the
      file, how many Gemini attempts it made and with which file type, the
      back-off waits between them, the rows it sent to the insert, and
      whether it marked the quote processed. */
  datatype Effects = Effects(downloaded: bool, aiCalls: nat, mimeType: Option<string>, waits: seq<nat>,
                             inserted: Option<seq<QuoteItemRow>>, markedProcessed: bool)

  /** `storagePath.toLowerCase().endsWith('.pdf') ? 'application/pdf' : 'image/jpeg'` */
  function MimeType(storagePath: string): (mime: string)
    ensures mime == PdfMime || mime == JpegMime
    ensures mime == PdfMime <==> EndsWith(Lower(storagePath), ".pdf")
  {
    if EndsWith(Lower(storagePath), ".pdf") then PdfMime else JpegMime
  }

  /** A file whose name ends in ".PDF" is sent as a PDF too. */
  lemma UpperCasePdfIsPdf(stem: string)
    ensures MimeType(stem + ".PDF") == PdfMime
  {
    var path := stem + ".PDF";
    var lowered := Lower(path);
    assert lowered[|lowered| - 4..] == ".pdf" by {
      assert path[|path| - 4..] == ".PDF";
      assert LowerChar('P') == 'p' && LowerChar('D') == 'd' && LowerChar('F') == 'f' && LowerChar('.') == '.';
    }
  }

  /** One extracted item as a `quote_items` row: `quantity || 1`,
      `unit || 'db'`, `unit_price || 0`, status pending. */
  function QuoteItemOf(quoteId: string, item: ExtractedItem): (row: QuoteItemRow)
    ensures row.quoteId == quoteId && row.rawText == item.description && row.status == "pending"
    ensures row.quantity != 0.0 && row.unit != ""
    ensures item.quantity.Some? && item.quantity.value != 0.0 ==> row.quantity == item.quantity.value
    ensures item.quantity.None? || item.quantity.value == 0.0 ==> row.quantity == 1.0
    ensures Truthy(item.unit) ==> row.unit == item.unit.value
    ensures !Truthy(item.unit) ==> row.unit == "db"
    ensures row.devizUnitPrice == (if item.unitPrice.Some? then item.unitPrice.value else 0.0)
  {
    QuoteItemRow(quoteId, item.description, NumberOr(item.quantity, 1.0), TextOr(item.unit, "db"),
                 NumberOr(item.unitPrice, 0.0), "pending")
  }

  function QuoteItems(quoteId: string, items: seq<ExtractedItem>): (rows: seq<QuoteItemRow>)
    ensures |rows| == |items|
    ensures forall i :: 0 <= i < |items| ==> rows[i] == QuoteItemOf(quoteId, items[i])
  {
    seq(|items|, i requires 0 <= i < |items| => QuoteItemOf(quoteId, items[i]))
  }

  /** `POST`. `ai(mime, k)` is the k-th Gemini attempt on the file; its
      answer is the reply text (None or empty when there is none).
      `parse` is `JSON.parse` (its error message when it throws); `insertError` is the
      insert's error, if any. */
  method ProcessQuoteRoute(quoteId: string, storagePath: string, apiKey: Option<string>, fileFound: bool,
                           ai: (string, nat) -> CallOutcome<Option<string>>,
                           parse: string -> Result<ParsedReply, string>, insertError: Option<string>)
    returns (response: Response, effects: Effects)
    // without an API key nothing is downloaded and Gemini is not called
    ensures !Truthy(apiKey) ==> response == Failure(MissingKeyMessage) && effects == Effects(false, 0, None, [], None, false)
    // a missing file stops before Gemini is called
    ensures Truthy(apiKey) && !fileFound ==>
              response == Failure(MissingFileMessage) && effects == Effects(true, 0, None, [], None, false)
    // Gemini is called between one and three times, on the type the path names
    ensures Truthy(apiKey) && fileFound ==>
              1 <= effects.aiCalls <= MaxRetries && effects.mimeType == Some(MimeType(storagePath))
    // every attempt before the last failed with a retryable error ...
    ensures Truthy(apiKey) && fileFound ==>
              forall k :: 1 <= k < effects.aiCalls ==>
                ai(MimeType(storagePath), k).Failed? && IsRetryable(ai(MimeType(storagePath), k).error)
    // ... a failure before the third attempt is one that is not retried ...
    ensures Truthy(apiKey) && fileFound && ai(MimeType(storagePath), effects.aiCalls).Failed?
            && effects.aiCalls < MaxRetries ==>
              !IsRetryable(ai(MimeType(storagePath), effects.aiCalls).error)
    // ... and each retry waits 2^k times 2000 ms first
    ensures |effects.waits| == (if effects.aiCalls == 0 then 0 else effects.aiCalls - 1)
    ensures forall k :: 0 <= k < |effects.waits| ==> effects.waits[k] == BackoffDelay(k + 1, ExtractionBaseDelay)
    // rows are written only from an `items` array, normalised
    ensures effects.inserted.Some? ==>
              var reply := ai(MimeType(storagePath), effects.aiCalls);
              reply.Answered? && Truthy(reply.value)
              && parse(reply.value.value).Ok? && parse(reply.value.value).value.items.Some?
              && effects.inserted.value == QuoteItems(quoteId, parse(reply.value.value).value.items.value)
    // ... and an `items` array in a non-empty reply is always written
    ensures Truthy(apiKey) && fileFound && ai(MimeType(storagePath), effects.aiCalls).Answered? ==>
              var text := ai(MimeType(storagePath), effects.aiCalls).value;
              Truthy(text) && parse(text.value).Ok? && parse(text.value).value.items.Some? ==>
                effects.inserted == Some(QuoteItems(quoteId, parse(text.value).value.items.value))
    // a failed insert fails the request
    ensures effects.inserted.Some? && insertError.Some? ==>
              response == Failure("Hiba a tételek mentésekor: " + insertError.value)
    // a call that still throws after the retries, or a reply that does not
    // parse, fails the request and writes nothing
    ensures Truthy(apiKey) && fileFound && ai(MimeType(storagePath), effects.aiCalls).Failed? ==>
              response == Failure(ai(MimeType(storagePath), effects.aiCalls).error.message) && effects.inserted.None?
    ensures Truthy(apiKey) && fileFound && ai(MimeType(storagePath), effects.aiCalls).Answered? ==>
              var text := ai(MimeType(storagePath), effects.aiCalls).value;
              Truthy(text) && parse(text.value).Err? ==>
                response == Failure(parse(text.value).error) && effects.inserted.None?
    // the quote is marked processed exactly when rows were written without error
    ensures effects.markedProcessed <==> effects.inserted.Some? && insertError.None?
    ensures response == Success ==> effects.inserted.None? || effects.markedProcessed
    // an empty reply is an error and writes nothing
    ensures Truthy(apiKey) && fileFound && ai(MimeType(storagePath), effects.aiCalls).Answered?
            && !Truthy(ai(MimeType(storagePath), effects.aiCalls).value) ==>
              response == Failure(EmptyReplyMessage) && effects.inserted.None?
  {
    if !Truthy(apiKey) {
      return Failure(MissingKeyMessage), Effects(false, 0, None, [], None, false);
    }
    if !fileFound {
      return Failure(MissingFileMessage), Effects(true, 0, None, [], None, false);
    }
    var mimeType := MimeType(storagePath);
    var attempt := (k: nat) => ai(mimeType, k);
    var outcome, calls, delays := GenerateWithRetry(attempt, ExtractionBaseDelay);
    effects := Effects(true, calls, Some(mimeType), delays, None, false);
    forall k: nat | 1 <= k < calls
      ensures ai(mimeType, k).Failed? && IsRetryable(ai(mimeType, k).error)
    {
      assert attempt(k) == ai(mimeType, k);
    }
    match outcome {
      case Thrown(e) =>
        response := Failure(e.message);
      case Returned(resultText) =>
        if !Truthy(resultText) {
          response := Failure(EmptyReplyMessage);
        } else {
          match parse(resultText.value) {
            case Err(parseError) =>
              response := Failure(parseError);
            case Ok(aiResult) =>
              if aiResult.items.Some? {
                var itemsToInsert := QuoteItems(quoteId, aiResult.items.value);
                if insertError.Some? {
                  response := Failure("Hiba a tételek mentésekor: " + insertError.value);
                  effects := effects.(inserted := Some(itemsToInsert));
                } else {
                  response := Success;
                  effects := effects.(inserted := Some(itemsToInsert), markedProcessed := true);
                }
              } else {
                response := Success;
              }
          }
        }
    }
  }
}
