/** The batch renderer (generate_all_worksheets.py): for each saved record,
    repair an over-long traceable verse, choose the script, and render the
    page. */
module GenerateAllWorksheets {
  import opened PyStr
  import opened Records
  import opened PdfCanvas
  import opened BuildPdf

  /** `is_too_long`: more than 26 whitespace-separated words. */
  predicate IsTooLong(text: string) {
    WordCount(text) > MaxTraceWords
  }

  /** Too long means more than 26 words as `split()` yields them. */
  lemma IsTooLongWords(text: string)
    ensures IsTooLong(text) <==> |Words(text)| > MaxTraceWords
  {
    WordCountWords(text);
  }

  /** What `process_file` needs to read the two verses as strings: the
      traceable verse always, the full verse once the traceable one is too long. */
  predicate Repairable(data: map<string, Value>) {
    && StrOrAbsent(data, "traceableVerse")
    && (IsTooLong(GetStr(data, "traceableVerse")) ==> StrOrAbsent(data, "fullVerse"))
  }

  /** The record after the repair of `process_file`: an over-long traceable
      verse is replaced by the full verse when that one is short enough. */
  function Repaired(data: map<string, Value>): map<string, Value>
    requires Repairable(data)
  {
    var traceable := GetStr(data, "traceableVerse");
    if IsTooLong(traceable) && !IsTooLong(GetStr(data, "fullVerse"))
    then data["traceableVerse" := Str(GetStr(data, "fullVerse"))]
    else data
  }

  /** A missing or short traceable verse is left alone. */
  lemma RepairKeepsShort(data: map<string, Value>)
    requires Repairable(data) && !IsTooLong(GetStr(data, "traceableVerse"))
    ensures Repaired(data) == data
  {
  }

  /** A long traceable verse gives way to a short full verse; when both are
      long the record stays as it is. */
  lemma RepairLong(data: map<string, Value>)
    requires Repairable(data) && IsTooLong(GetStr(data, "traceableVerse"))
    ensures "traceableVerse" in data
    ensures !IsTooLong(GetStr(data, "fullVerse")) ==>
              Repaired(data) == data["traceableVerse" := Str(GetStr(data, "fullVerse"))]
    ensures IsTooLong(GetStr(data, "fullVerse")) ==> Repaired(data) == data
  {
  }

  /** The repair adds and removes no key. */
  lemma RepairKeepsKeys(data: map<string, Value>)
    requires Repairable(data)
    ensures forall k :: k in Repaired(data) <==> k in data
  {
    var long := IsTooLong(GetStr(data, "traceableVerse")) && !IsTooLong(GetStr(data, "fullVerse"));
    if long {
      RepairLong(data);
    }
  }

  /** Only `traceableVerse` can change: every other key keeps its value. */
  lemma RepairOnlyTraceable(data: map<string, Value>, key: string)
    requires Repairable(data) && key in data && key != "traceableVerse"
    ensures key in Repaired(data) && Repaired(data)[key] == data[key]
  {
    var long := IsTooLong(GetStr(data, "traceableVerse")) && !IsTooLong(GetStr(data, "fullVerse"));
    if long {
      RepairLong(data);
      var v := Str(GetStr(data, "fullVerse"));
      assert Repaired(data) == data["traceableVerse" := v];
      assert data["traceableVerse" := v][key] == data[key];
    } else {
      assert Repaired(data) == data;
    }
  }

  /** With a short full verse, the traceable verse that remains is short too. */
  lemma RepairShortens(data: map<string, Value>)
    requires Repairable(data) && StrOrAbsent(data, "fullVerse") && !IsTooLong(GetStr(data, "fullVerse"))
    ensures StrOrAbsent(Repaired(data), "traceableVerse")
    ensures !IsTooLong(GetStr(Repaired(data), "traceableVerse"))
  {
    if IsTooLong(GetStr(data, "traceableVerse")) {
      RepairLong(data);
      assert Repaired(data)["traceableVerse"] == Str(GetStr(data, "fullVerse"));
    } else {
      RepairKeepsShort(data);
    }
  }

  /** A repaired record can be repaired again. */
  lemma RepairedRepairable(data: map<string, Value>)
    requires Repairable(data)
    ensures Repairable(Repaired(data))
  {
    if IsTooLong(GetStr(data, "traceableVerse")) {
      RepairLong(data);
    } else {
      RepairKeepsShort(data);
    }
  }

  /** Repairing twice is repairing once. */
  lemma RepairIdempotent(data: map<string, Value>)
    requires Repairable(data)
    ensures Repairable(Repaired(data)) && Repaired(Repaired(data)) == Repaired(data)
  {
    RepairedRepairable(data);
    var d := Repaired(data);
    if IsTooLong(GetStr(data, "traceableVerse")) && !IsTooLong(GetStr(data, "fullVerse")) {
      RepairLong(data);
      assert GetStr(d, "traceableVerse") == GetStr(data, "fullVerse");
      RepairKeepsShort(d);
    } else {
      assert d == data;
    }
  }

  /** After the repair the page traces a text of at most 26 words, unless
      the full verse is long and there is no short traceable verse. */
  lemma RepairedTracesShortText(data: map<string, Value>)
    requires Repairable(data) && WorksheetRecord(Repaired(data))
    requires !IsTooLong(Repaired(data)["fullVerse"].s)
             || ("traceableVerse" in data && !IsTooLong(GetStr(data, "traceableVerse")))
    ensures !IsTooLong(TracingText(Repaired(data)))
  {
  }

  /** `data.get("cursive", True)`: the stored choice, cursive by default. */
  function CursiveSetting(data: map<string, Value>): (v: Value)
    ensures "cursive" !in data ==> Truthy(v)
    ensures "cursive" in data ==> v == data["cursive"]
  {
    Get(data, "cursive", Bool(true))
  }

  /** The repair step of `process_file`, done in place on the record. */
  method RepairTraceable(data: Dict)
    requires Repairable(data.entries)
    modifies data
    ensures data.entries == Repaired(old(data.entries))
  {
    var traceable := GetStr(data.entries, "traceableVerse");
    if IsTooLong(traceable) {
      RepairLong(data.entries);
      var full := GetStr(data.entries, "fullVerse");
      if !IsTooLong(full) {
        data.entries := data.entries["traceableVerse" := Str(full)];
      }
    } else {
      RepairKeepsShort(data.entries);
    }
  }

  /** The render step of `process_file`: the page of a record, in the
      script the record asks for and in cursive when it asks for none. */
  method RenderRecord(entries: map<string, Value>, m: Metrics, assets: Assets) returns (c: Canvas)
    requires WorksheetRecord(entries)
    ensures fresh(c)
    ensures c.ops == PageOps(m, assets, SheetOf(entries), Truthy(CursiveSetting(entries)))
  {
    c := GeneratePdf(entries, Truthy(CursiveSetting(entries)), m, assets);
  }

  /** `process_file` for an already loaded record: skipped when the PDF
      exists; otherwise the record is repaired in place and rendered, in
      cursive unless the record says otherwise. */
  method ProcessFile(data: Dict, pdfExists: bool, m: Metrics, assets: Assets) returns (page: Option<Canvas>)
    requires Repairable(data.entries)
    requires !pdfExists ==> WorksheetRecord(Repaired(data.entries))
    modifies data
    ensures pdfExists ==> page.None? && data.entries == old(data.entries)
    ensures !pdfExists ==> data.entries == Repaired(old(data.entries))
    ensures !pdfExists ==> page.Some? && fresh(page.value)
    ensures !pdfExists ==> page.value.ops == PageOps(m, assets, SheetOf(data.entries), Truthy(CursiveSetting(data.entries)))
  {
    if pdfExists {
      return None;
    }
    RepairTraceable(data);
    var c := RenderRecord(data.entries, m, assets);
    page := Some(c);
  }
}
