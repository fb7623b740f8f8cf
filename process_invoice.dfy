/** Invoice extraction (`POST /api/process-invoice`): the uploaded invoice
    is read by an OpenAI assistant; the JSON object is cut out of its
    reply (`processWithAssistant`), the invoice gets its supplier name and
    the status processed, and the extracted lines are stored as pending
    invoice items.

    The storage download, the assistant run and `JSON.parse` are oracles
    passed in. */
module ProcessInvoice {
  import opened Common

  const Fence: string := "```"

  const JsonFence: string := "```json"

  const UnknownSupplier: string := "Ismeretlen Beszállító"

  /** The supplier name of the fallback result of a run that did not
      complete. */
  const FallbackSupplier: string := "Ismeretlen"

  // ---------------------------------------------------------------------
  // String operations of the span extraction
  // ---------------------------------------------------------------------

  /** `s.replace(/pat/g, '')`: every occurrence, scanning left to right
      without overlap, removed. */
  function RemoveAll(s: string, pat: string): string
    requires pat != []
    decreases |s|
  {
    if |s| < |pat| then s
    else if s[..|pat|] == pat then RemoveAll(s[|pat|..], pat)
    else [s[0]] + RemoveAll(s[1..], pat)
  }

  /** What `String.prototype.trim` removes: white space and line
      terminators. */
  predicate IsTrimmed(c: char)
  {
    || c == ' ' || c == '\t' || c == '\n' || c == '\r' || c == '\U{000B}' || c == '\U{000C}'
    || c == '\U{00A0}' || c == '\U{1680}' || ('\U{2000}' <= c <= '\U{200A}')
    || c == '\U{2028}' || c == '\U{2029}' || c == '\U{202F}' || c == '\U{205F}'
    || c == '\U{3000}' || c == '\U{FEFF}'
  }

  function TrimStart(s: string): (r: string)
    ensures |r| <= |s| && r == s[|s| - |r|..]
    ensures r != [] ==> !IsTrimmed(r[0])
    ensures forall i :: 0 <= i < |s| - |r| ==> IsTrimmed(s[i])
    decreases |s|
  {
    if s != [] && IsTrimmed(s[0]) then TrimStart(s[1..]) else s
  }

  function TrimEnd(s: string): (r: string)
    ensures |r| <= |s| && r == s[..|r|]
    ensures r != [] ==> !IsTrimmed(r[|r| - 1])
    ensures forall i :: |r| <= i < |s| ==> IsTrimmed(s[i])
    decreases |s|
  {
    if s != [] && IsTrimmed(s[|s| - 1]) then TrimEnd(s[..|s| - 1]) else s
  }

  /** `piece` is a contiguous part of `s`. */
  predicate SliceOf(piece: string, s: string)
  {
    exists a, b :: 0 <= a <= b <= |s| && piece == s[a..b]
  }

  /** `r` is `s` with only white space cut from its two ends. */
  predicate TrimmedFrom(r: string, s: string)
  {
    exists a, b :: 0 <= a <= b <= |s| && r == s[a..b]
      && (forall i :: 0 <= i < a ==> IsTrimmed(s[i]))
      && (forall i :: b <= i < |s| ==> IsTrimmed(s[i]))
  }

  /** Cutting white space from the front of `s` and then from the back of
      what is left cuts only white space from `s`. */
  lemma TrimmedInTwoSteps(s: string, front: string, r: string)
    requires |front| <= |s| && front == s[|s| - |front|..]
    requires forall i :: 0 <= i < |s| - |front| ==> IsTrimmed(s[i])
    requires |r| <= |front| && r == front[..|r|]
    requires forall i :: |r| <= i < |front| ==> IsTrimmed(front[i])
    ensures TrimmedFrom(r, s)
  {
    var a := |s| - |front|;
    var b := a + |r|;
    forall i | b <= i < |s|
      ensures IsTrimmed(s[i])
    {
      assert s[i] == front[i - a];
    }
    assert r == s[a..b];
  }

  /** Trimming the start and then the end cuts only white space. */
  lemma TrimBothEnds(s: string)
    ensures TrimmedFrom(TrimEnd(TrimStart(s)), s)
  {
    TrimmedInTwoSteps(s, TrimStart(s), TrimEnd(TrimStart(s)));
  }

  /** `s.trim()`: a slice of `s` with no white space at either end, only
      white space cut away. */
  function Trim(s: string): (r: string)
    ensures TrimmedFrom(r, s)
    ensures r != [] ==> !IsTrimmed(r[0]) && !IsTrimmed(r[|r| - 1])
  {
    TrimBothEnds(s);
    TrimEnd(TrimStart(s))
  }

  function Clamp(x: int, len: nat): nat
  {
    if x < 0 then 0 else if x > len then len else x
  }

  /** `s.substring(a, b)`: both ends clamped into the string, swapped when
      the first is the larger. */
  function Substring(s: string, a: int, b: int): (r: string)
    ensures Clamp(a, |s|) <= Clamp(b, |s|) ==> r == s[Clamp(a, |s|)..Clamp(b, |s|)]
    ensures Clamp(b, |s|) < Clamp(a, |s|) ==> r == s[Clamp(b, |s|)..Clamp(a, |s|)]
  {
    var lo, hi := Clamp(a, |s|), Clamp(b, |s|);
    if lo <= hi then s[lo..hi] else s[hi..lo]
  }

  /** `substring` does not care in which order its ends are given, nor
      whether they lie outside the string: the result is the piece between
      the two clamped ends, as long as their distance. */
  lemma SubstringProperties(s: string, a: int, b: int)
    ensures Substring(s, a, b) == Substring(s, b, a)
    ensures Substring(s, a, b) == Substring(s, Clamp(a, |s|), Clamp(b, |s|))
    ensures var lo, hi := Clamp(a, |s|), Clamp(b, |s|);
            |Substring(s, a, b)| == (if lo <= hi then hi - lo else lo - hi)
    ensures Substring(s, 0, |s|) == s
    ensures a >= |s| && b >= |s| ==> Substring(s, a, b) == []
    ensures a <= 0 && b <= 0 ==> Substring(s, a, b) == []
  {
  }

  // ---------------------------------------------------------------------
  // The span extraction and what it guarantees
  // ---------------------------------------------------------------------

  /** The cleaned reply before the span is cut: fences removed, trimmed.
      Nothing is added: the result is a piece of the text with both fence
      kinds taken out, and it starts and ends with no white space. */
  function CleanReply(text: string): (t: string)
    ensures TrimmedFrom(t, RemoveAll(RemoveAll(text, JsonFence), Fence))
    ensures t != [] ==> !IsTrimmed(t[0]) && !IsTrimmed(t[|t| - 1])
  {
    Trim(RemoveAll(RemoveAll(text, JsonFence), Fence))
  }

  /** `cleanJson.substring(cleanJson.indexOf('{'), cleanJson.lastIndexOf('}') + 1)`
      on the cleaned reply `t`. */
  function BraceSpan(t: string): (span: string)
    ensures SliceOf(span, t)
    // when a '{' comes no later than the last '}', the span runs from the
    // first '{' to the last '}' inclusive
    ensures 0 <= IndexOf(t, '{') <= LastIndexOf(t, '}') ==>
              span == t[IndexOf(t, '{')..LastIndexOf(t, '}') + 1]
              && span[0] == '{' && span[|span| - 1] == '}'
    // without a '{' the span is the text up to the last '}' (empty when
    // there is no '}' either)
    ensures IndexOf(t, '{') == -1 ==> span == t[..LastIndexOf(t, '}') + 1]
    // a '{' after the last '}' swaps the ends: the text strictly between
    // that '}' and the first '{'
    ensures 0 <= IndexOf(t, '{') && LastIndexOf(t, '}') < IndexOf(t, '{') ==>
              span == t[LastIndexOf(t, '}') + 1..IndexOf(t, '{')]
  {
    var i, j := IndexOf(t, '{'), LastIndexOf(t, '}');
    var lo, hi := Clamp(i, |t|), Clamp(j + 1, |t|);
    assert lo <= hi ==> Substring(t, i, j + 1) == t[lo..hi];
    assert hi < lo ==> Substring(t, i, j + 1) == t[hi..lo];
    assert Clamp(j + 1, |t|) == j + 1;
    assert 0 <= i ==> Clamp(i, |t|) == i;
    Substring(t, i, j + 1)
  }

  /** Cutting the span out of a text without fences adds none. */
  lemma BraceSpanKeepsNoFence(t: string)
    requires NoFence(t)
    ensures NoFence(BraceSpan(t))
  {
    var lo, hi := Clamp(IndexOf(t, '{'), |t|), Clamp(LastIndexOf(t, '}') + 1, |t|);
    if lo <= hi {
      SliceKeepsNoFence(t, lo, hi);
    } else {
      SliceKeepsNoFence(t, hi, lo);
    }
  }

  /** The JSON text cut out of the assistant's reply: a piece of the
      cleaned reply (`BraceSpan` says which). */
  function JsonSpan(text: string): (span: string)
    ensures SliceOf(span, CleanReply(text))
  {
    BraceSpan(CleanReply(text))
  }

  /** No three backticks in a row anywhere in `t`. */
  predicate NoFence(t: string)
  {
    forall i :: 0 <= i < |t| - 2 ==> !(t[i] == '`' && t[i + 1] == '`' && t[i + 2] == '`')
  }

  lemma NoFenceMeansNotContained(t: string)
    requires NoFence(t)
    ensures !Contains(t, Fence)
  {
    forall i | 0 <= i <= |t|
      ensures !OccursAt(t, Fence, i)
    {
      if i + 3 <= |t| {
        assert t[i..i + 3][0] == t[i] && t[i..i + 3][1] == t[i + 1] && t[i..i + 3][2] == t[i + 2];
      }
    }
  }

  /** A first character other than a backtick survives the removal. */
  lemma HeadKept(t: string)
    requires t != [] && t[0] != '`'
    ensures RemoveAll(t, Fence) != [] && RemoveAll(t, Fence)[0] == t[0]
  {
    if |t| >= |Fence| {
      assert t[..3][0] == t[0] && Fence[0] == '`';
    }
  }

  /** After a single leading backtick, the removal of the rest does not
      start with two backticks. */
  lemma RestHead(s: string)
    requires |s| >= 3 && s[0] == '`' && s[..3] != Fence
    ensures var rest := RemoveAll(s[1..], Fence);
            !(|rest| >= 2 && rest[0] == '`' && rest[1] == '`')
  {
    var t := s[1..];
    if t[0] != '`' {
      HeadKept(t);
    } else {
      assert s[..3] == [s[0], s[1], s[2]];
      assert t[1] == s[2] && s[2] != '`';
      if |t| >= 3 {
        assert t[..3][1] == t[1];
        assert t[..3] != Fence;
        assert RemoveAll(t, Fence) == [t[0]] + RemoveAll(t[1..], Fence);
        HeadKept(t[1..]);
      }
    }
  }

  /** Removing the fences leaves no three backticks in a row. */
  lemma {:induction false} NoFenceAfterRemoval(s: string)
    ensures NoFence(RemoveAll(s, Fence))
    decreases |s|
  {
    if |s| < |Fence| {
    } else if s[..|Fence|] == Fence {
      NoFenceAfterRemoval(s[|Fence|..]);
    } else {
      var rest := RemoveAll(s[1..], Fence);
      NoFenceAfterRemoval(s[1..]);
      var r := [s[0]] + rest;
      assert RemoveAll(s, Fence) == r;
      if s[0] == '`' {
        RestHead(s);
      }
      forall i | 0 <= i < |r| - 2
        ensures !(r[i] == '`' && r[i + 1] == '`' && r[i + 2] == '`')
      {
        if i > 0 {
          assert r[i] == rest[i - 1] && r[i + 1] == rest[i] && r[i + 2] == rest[i + 1];
        }
      }
    }
  }

  /** A slice of a text without fences has none either. */
  lemma SliceKeepsNoFence(s: string, a: int, b: int)
    requires 0 <= a <= b <= |s| && NoFence(s)
    ensures NoFence(s[a..b])
  {
    forall i | 0 <= i < |s[a..b]| - 2
      ensures !(s[a..b][i] == '`' && s[a..b][i + 1] == '`' && s[a..b][i + 2] == '`')
    {
      assert s[a..b][i] == s[a + i] && s[a..b][i + 1] == s[a + i + 1] && s[a..b][i + 2] == s[a + i + 2];
    }
  }

  /** The cleaned reply holds no code fence. */
  lemma CleanReplyHasNoFence(text: string)
    ensures NoFence(CleanReply(text))
    ensures !Contains(CleanReply(text), Fence)
  {
    var removed := RemoveAll(RemoveAll(text, JsonFence), Fence);
    NoFenceAfterRemoval(RemoveAll(text, JsonFence));
    var t := CleanReply(text);
    var a, b :| 0 <= a <= b <= |removed| && t == removed[a..b];
    SliceKeepsNoFence(removed, a, b);
    NoFenceMeansNotContained(t);
  }

  /** The span never contains a code fence. */
  lemma SpanHasNoFence(text: string)
    ensures !Contains(JsonSpan(text), Fence)
  {
    CleanReplyHasNoFence(text);
    BraceSpanKeepsNoFence(CleanReply(text));
    NoFenceMeansNotContained(JsonSpan(text));
  }

  // ---------------------------------------------------------------------
  // The assistant result and the route
  // ---------------------------------------------------------------------

  /** An extracted invoice line; every field may be missing. */
  datatype ExtractedLine = ExtractedLine(rawName: Option<string>, quantity: Option<real>,
                                         unitPrice: Option<real>, rawUnit: Option<string>)

  /** The parsed assistant result: `items` when it is an array. */
  datatype AssistantResult = AssistantResult(supplierName: Option<string>, items: Option<seq<ExtractedLine>>)

  /** The assistant run: it threw, ended in another status, or completed
      with the text of the first message. */
  datatype Run = RunThrew(message: string) | NotCompleted(status: string) | Completed(text: string)

  /** `processWithAssistant`: the parsed span of a completed run, or the
      fallback `{items: [], supplier_name: 'Ismeretlen'}`; an error
      message when the run or `JSON.parse` throws. */
  function AssistantOutcome(run: Run, parse: string -> Result<AssistantResult, string>): (r: Result<AssistantResult, string>)
    ensures run.NotCompleted? ==> r == Ok(AssistantResult(Some(FallbackSupplier), Some([])))
    ensures run.Completed? ==> r == parse(JsonSpan(run.text))
    ensures run.RunThrew? ==> r == Err(run.message)
  {
    match run
    case RunThrew(msg) => Err(msg)
    case NotCompleted(_) => Ok(AssistantResult(Some(FallbackSupplier), Some([])))
    case Completed(text) => parse(JsonSpan(text))
  }

  datatype InvoiceUpdate = InvoiceUpdate(invoiceId: string, supplierName: string, status: string)

  datatype InvoiceItemRow = InvoiceItemRow(invoiceId: string, rawName: Option<string>, quantity: real,
                                           unitPrice: real, rawUnit: string, status: string)

  datatype Response = Success | Failure(message: string)

  /** What the route answers and writes. */
  datatype Outcome = Outcome(response: Response, update: Option<InvoiceUpdate>, inserted: Option<seq<InvoiceItemRow>>)

  /** One line as an `invoice_items` row: `quantity || 1`,
      `unit_price || 0`, `raw_unit || 'buc'`, status pending. */
  function InvoiceItemOf(invoiceId: string, line: ExtractedLine): (row: InvoiceItemRow)
    ensures row.invoiceId == invoiceId && row.rawName == line.rawName && row.status == "pending"
    ensures row.quantity != 0.0 && row.rawUnit != ""
    ensures line.quantity.Some? && line.quantity.value != 0.0 ==> row.quantity == line.quantity.value
    ensures line.quantity.None? || line.quantity.value == 0.0 ==> row.quantity == 1.0
    ensures row.unitPrice == (if line.unitPrice.Some? then line.unitPrice.value else 0.0)
    ensures Truthy(line.rawUnit) ==> row.rawUnit == line.rawUnit.value
    ensures !Truthy(line.rawUnit) ==> row.rawUnit == "buc"
  {
    InvoiceItemRow(invoiceId, line.rawName, NumberOr(line.quantity, 1.0), NumberOr(line.unitPrice, 0.0),
                   TextOr(line.rawUnit, "buc"), "pending")
  }

  function InvoiceItems(invoiceId: string, lines: seq<ExtractedLine>): (rows: seq<InvoiceItemRow>)
    ensures |rows| == |lines|
    ensures forall i :: 0 <= i < |lines| ==> rows[i] == InvoiceItemOf(invoiceId, lines[i])
  {
    seq(|lines|, i requires 0 <= i < |lines| => InvoiceItemOf(invoiceId, lines[i]))
  }

  /** `POST`. `fileFound` is whether the download returned data. */
  function ProcessInvoiceRoute(invoiceId: string, fileFound: bool, run: Run,
                               parse: string -> Result<AssistantResult, string>): (o: Outcome)
    // a missing file is an error and nothing is written
    ensures !fileFound ==> o == Outcome(Failure("Fájl nem található"), None, None)
    // a failed run or parse writes nothing
    ensures fileFound && AssistantOutcome(run, parse).Err? ==>
              o == Outcome(Failure(AssistantOutcome(run, parse).error), None, None)
    // otherwise the invoice is processed, under its supplier or the default
    ensures fileFound && AssistantOutcome(run, parse).Ok? ==>
              var result := AssistantOutcome(run, parse).value;
              o.response == Success
              && o.update == Some(InvoiceUpdate(invoiceId, TextOr(result.supplierName, UnknownSupplier), "processed"))
              && (o.inserted.Some? <==> result.items.Some?)
              && (o.inserted.Some? ==> o.inserted.value == InvoiceItems(invoiceId, result.items.value))
    // the update never leaves the supplier name empty
    ensures o.update.Some? ==> o.update.value.supplierName != ""
  {
    if !fileFound then Outcome(Failure("Fájl nem található"), None, None)
    else
      match AssistantOutcome(run, parse)
      case Err(msg) => Outcome(Failure(msg), None, None)
      case Ok(result) =>
        var update := InvoiceUpdate(invoiceId, TextOr(result.supplierName, UnknownSupplier), "processed");
        var inserted := if result.items.Some? then Some(InvoiceItems(invoiceId, result.items.value)) else None;
        Outcome(Success, Some(update), inserted)
  }

  /** A run that does not complete still marks the invoice processed,
      under the supplier 'Ismeretlen', and writes no items. */
  lemma IncompleteRunWritesNoItems(invoiceId: string, status: string, parse: string -> Result<AssistantResult, string>)
    ensures var o := ProcessInvoiceRoute(invoiceId, true, NotCompleted(status), parse);
            o.update == Some(InvoiceUpdate(invoiceId, FallbackSupplier, "processed")) && o.inserted == Some([])
  {
  }
}
