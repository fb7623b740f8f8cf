/** The quotes page: `handleUpload`, which stores a chosen file under a
    sanitised name, records a pending quote and asks for its analysis, and
    `handleDelete`, which removes a quote after confirmation.

    `Date.now()` is the parameter `now`; the storage upload, the quote
    insert, the analysis request and the confirmation dialog are oracles
    given as their replies. */
module QuoteUpload {
  import opened Common

  const QuotesFolder: string := "quotes/"

  const StemLength: nat := 10

  /** The characters `/[^a-zA-Z0-9]/g` leaves alone. */
  predicate IsAsciiAlnum(c: char)
  {
    ('a' <= c <= 'z') || ('A' <= c <= 'Z') || ('0' <= c <= '9')
  }

  predicate IsDigit(c: char)
  {
    '0' <= c <= '9'
  }

  /** The number a string of decimal digits spells, most significant
      digit first. */
  function DigitsValue(s: string): nat
    requires forall i :: 0 <= i < |s| ==> IsDigit(s[i])
  {
    if s == [] then 0
    else
      assert IsDigit(s[|s| - 1]);
      DigitsValue(s[..|s| - 1]) * 10 + (s[|s| - 1] as int - '0' as int)
  }

  /** The decimal text of a timestamp, as a template literal prints it:
      digits only, no leading zero, spelling `n`. */
  function DecimalText(n: nat): (s: string)
    ensures s != [] && forall i :: 0 <= i < |s| ==> IsDigit(s[i])
    ensures DigitsValue(s) == n
    ensures |s| > 1 ==> s[0] != '0'
    ensures n < 10 ==> |s| == 1
  {
    var digit := ['0' + (n % 10) as char];
    if n < 10 then digit
    else
      var front := DecimalText(n / 10);
      assert (front + digit)[..|front|] == front;
      front + digit
  }

  /** `file.name.split('.').pop()`: the text after the last '.', or the
      whole name when it has none. */
  function FileExt(name: string): (ext: string)
    ensures '.' !in ext
    ensures '.' !in name ==> ext == name
    ensures '.' in name ==> |ext| < |name| && name == name[..|name| - |ext| - 1] + "." + ext
  {
    var dot := LastIndexOf(name, '.');
    var ext := name[dot + 1..];
    assert forall c :: c in ext ==> exists k :: dot < k < |name| && name[k] == c;
    assert dot >= 0 ==> name == name[..dot] + "." + ext;
    ext
  }

  /** `file.name.replace(/[^a-zA-Z0-9]/g, '_')` */
  function Sanitised(name: string): (r: string)
    ensures |r| == |name|
    ensures forall i :: 0 <= i < |name| ==> r[i] == (if IsAsciiAlnum(name[i]) then name[i] else '_')
  {
    seq(|name|, i requires 0 <= i < |name| => if IsAsciiAlnum(name[i]) then name[i] else '_')
  }

  /** `.substring(0, 10)` of the sanitised name: at most ten characters,
      each a letter, a digit or '_', taken from the front of the name. */
  function Stem(name: string): (stem: string)
    ensures |stem| == Min(StemLength, |name|)
    ensures forall i :: 0 <= i < |stem| ==> IsAsciiAlnum(stem[i]) || stem[i] == '_'
    ensures forall i :: 0 <= i < |stem| && IsAsciiAlnum(name[i]) ==> stem[i] == name[i]
    ensures forall i :: 0 <= i < |stem| ==> stem[i] == Sanitised(name)[i]
  {
    var clean := Sanitised(name);
    if |clean| <= StemLength then clean else clean[..StemLength]
  }

  /** `${Date.now()}_${stem}.${fileExt}` */
  function FileName(now: nat, name: string): string
  {
    DecimalText(now) + "_" + Stem(name) + "." + FileExt(name)
  }

  /** `quotes/${fileName}` */
  function StoragePath(now: nat, name: string): (path: string)
    ensures StartsWith(path, QuotesFolder)
    ensures path == QuotesFolder + FileName(now, name)
  {
    QuotesFolder + FileName(now, name)
  }

  /** A name ending in "." and a text without '.' has that text as its
      extension. */
  lemma ExtAfterLastDot(front: string, ext: string)
    requires '.' !in ext
    ensures FileExt(front + "." + ext) == ext
  {
    var s := front + "." + ext;
    var j := LastIndexOf(s, '.');
    assert s[|front|] == '.';
    assert forall k :: |front| < k < |s| ==> s[k] == ext[k - |front| - 1];
    assert j == |front|;
    assert s[j + 1..] == ext;
  }

  /** The stored file keeps the extension of the chosen file. */
  lemma ExtensionSurvives(now: nat, name: string)
    ensures FileExt(FileName(now, name)) == FileExt(name)
  {
    var front := DecimalText(now) + "_" + Stem(name);
    assert FileName(now, name) == front + "." + FileExt(name);
    ExtAfterLastDot(front, FileExt(name));
  }

  /** Only the folder separator is a '/' in the path, whatever the name
      holds before its extension: the file stays in the quotes folder when
      its extension has no '/'. */
  lemma PathStaysInFolder(now: nat, name: string)
    requires '/' !in FileExt(name)
    ensures '/' !in FileName(now, name)
  {
    var digits, stem, ext := DecimalText(now), Stem(name), FileExt(name);
    assert FileName(now, name) == digits + "_" + stem + "." + ext;
    assert '/' !in digits && '/' !in stem;
  }

  /** A quote row. */
  datatype Quote = Quote(id: string, name: string, storagePath: string, status: string)

  /** The row `handleUpload` inserts. */
  datatype NewQuote = NewQuote(name: string, storagePath: string, status: string)

  datatype UploadResult = NoFile | Alerted(message: string) | Opened(quoteId: string)

  /** What an upload did: the path it stored the file at, the quote row it
      inserted, and the quote id and path it asked to be analysed. */
  datatype Upload = Upload(result: UploadResult, storedAt: Option<string>, inserted: Option<NewQuote>,
                           analysed: Option<(string, string)>)

  /** `handleUpload`. `file` is the chosen file's name, `uploadError` the
      storage error, `insertReply` the new quote's id or the store error,
      and `analysisOk` whether the analysis request answered ok. */
  function HandleUpload(file: Option<string>, now: nat, uploadError: Option<string>,
                        insertReply: Result<string, string>, analysisOk: bool): (u: Upload)
    // without a file nothing happens
    ensures file.None? ==> u == Upload(NoFile, None, None, None)
    // a chosen file is always stored, under its sanitised name
    ensures file.Some? ==> u.storedAt == Some(StoragePath(now, file.value))
    // a quote is recorded only after the file is stored: under the
    // original name, pending
    ensures u.inserted.Some? <==> file.Some? && uploadError.None?
    ensures u.inserted.Some? ==> u.inserted.value == NewQuote(file.value, StoragePath(now, file.value), "pending")
    // the analysis is asked for only for a recorded quote
    ensures u.analysed.Some? <==> u.inserted.Some? && insertReply.Ok?
    ensures u.analysed.Some? ==> u.analysed.value == (insertReply.value, u.inserted.value.storagePath)
    // the quote opens exactly when its analysis answered; any failure is an alert
    ensures u.result.Opened? <==> u.analysed.Some? && analysisOk
    ensures u.result.Opened? ==> u.result.quoteId == insertReply.value
    ensures file.Some? && !u.result.Opened? ==> u.result.Alerted?
  {
    match file
    case None => Upload(NoFile, None, None, None)
    case Some(name) =>
      var path := StoragePath(now, name);
      if uploadError.Some? then
        Upload(Alerted("Hiba: Storage Hiba: " + uploadError.value), Some(path), None, None)
      else
        var row := NewQuote(name, path, "pending");
        match insertReply
        case Err(msg) => Upload(Alerted("Hiba: DB Hiba: " + msg), Some(path), Some(row), None)
        case Ok(id) =>
          if analysisOk then Upload(Opened(id), Some(path), Some(row), Some((id, path)))
          else Upload(Alerted("Hiba: Hiba az elemzés közben"), Some(path), Some(row), Some((id, path)))
  }

  /** `handleDelete` followed by the reload: without confirmation the list
      stays as it was; with it, the quotes with that id are gone and every
      other quote stays, as many times as it was listed. */
  function DeleteQuote(quotes: seq<Quote>, id: string, confirmed: bool): (r: seq<Quote>)
    ensures !confirmed ==> r == quotes
    ensures confirmed ==> forall q :: q in r <==> q in quotes && q.id != id
    ensures confirmed ==> forall q :: multiset(r)[q] == (if q.id != id then multiset(quotes)[q] else 0)
  {
    if confirmed then
      var keep := (q: Quote) => q.id != id;
      FilterMultiplicity(quotes, keep);
      Filter(quotes, keep)
    else quotes
  }
}
