/** The preprocessing stage: index the loaded rows by product ID, select the
    rows the request asks for, and normalise every cell to a trimmed string. */
module PreprocessorAgent {
  import opened PyValues
  import opened Schemas

  /** A row as pandas loads it: every cell a scalar. */
  predicate FlatRow(r: Record)
  {
    forall i :: 0 <= i < |r| ==> IsScalar(r[i].1)
  }

  predicate FlatRows(rows: seq<Record>)
  {
    forall r :: r in rows ==> FlatRow(r)
  }

  lemma FlatGet(r: Record, k: string)
    requires FlatRow(r)
    ensures Get(r, k).Some? ==> IsScalar(Get(r, k).value)
  {
    if r != [] && r[0].0 != k {
      FlatGet(r[1..], k);
    }
  }

  /** `str(row['PRODUCT_ID'])`; None where the row has no such key (a KeyError). */
  function IdKey(row: Record): (id: Option<string>)
    requires FlatRow(row)
    ensures id.None? <==> "PRODUCT_ID" !in Keys(row)
  {
    FlatGet(row, "PRODUCT_ID");
    match Get(row, "PRODUCT_ID")
    case None => None
    case Some(v) => Some(ScalarStr(v))
  }

  predicate IndexInRange(index: map<string, int>, n: int)
  {
    forall k :: k in index ==> 0 <= index[k] < n
  }

  /** `{str(row['PRODUCT_ID']): idx for idx, row in enumerate(data)}`, or None
      when some row has no product ID. */
  function BuildIndex(data: seq<Record>): (r: Option<map<string, int>>)
    requires FlatRows(data)
    ensures r.Some? ==> IndexInRange(r.value, |data|)
  {
    if data == [] then Some(map[])
    else
      var last := |data| - 1;
      match BuildIndex(data[..last])
      case None => None
      case Some(m) =>
        match IdKey(data[last])
        case None => None
        case Some(k) => Some(m[k := last])
  }

  /** The index fails exactly when a row lacks a product ID. */
  lemma {:induction false} IndexFailsOnMissingId(data: seq<Record>)
    requires FlatRows(data)
    ensures BuildIndex(data).None? <==> exists j :: 0 <= j < |data| && IdKey(data[j]).None?
  {
    if data != [] {
      var last := |data| - 1;
      var init := data[..last];
      IndexFailsOnMissingId(init);
      if BuildIndex(init).None? {
        var j :| 0 <= j < |init| && IdKey(init[j]).None?;
        assert data[j] == init[j];
      } else if IdKey(data[last]).Some? {
        forall j | 0 <= j < |data| ensures IdKey(data[j]).Some? {
          if j < last {
            assert data[j] == init[j];
          }
        }
      }
    }
  }

  /** Otherwise the index holds every row's ID, ... */
  lemma {:induction false} IndexHoldsEveryId(data: seq<Record>, j: int)
    requires FlatRows(data) && BuildIndex(data).Some? && 0 <= j < |data|
    ensures IdKey(data[j]).Some? && IdKey(data[j]).value in BuildIndex(data).value
  {
    var last := |data| - 1;
    var init := data[..last];
    if j < last {
      assert data[j] == init[j];
      IndexHoldsEveryId(init, j);
    }
  }

  /** ... maps each ID to a row carrying it, ... */
  lemma {:induction false} IndexPointsAtId(data: seq<Record>, k: string)
    requires FlatRows(data) && BuildIndex(data).Some? && k in BuildIndex(data).value
    ensures IdKey(data[BuildIndex(data).value[k]]) == Some(k)
  {
    var last := |data| - 1;
    var init := data[..last];
    var m0 := BuildIndex(init).value;
    if k != IdKey(data[last]).value {
      IndexPointsAtId(init, k);
      assert data[m0[k]] == init[m0[k]];
    }
  }

  /** ... and when IDs repeat it is the last row carrying the ID that wins. */
  lemma {:induction false} IndexLastWins(data: seq<Record>, k: string, j: int)
    requires FlatRows(data) && BuildIndex(data).Some? && k in BuildIndex(data).value
    requires BuildIndex(data).value[k] < j < |data|
    ensures IdKey(data[j]) != Some(k)
  {
    var last := |data| - 1;
    var init := data[..last];
    var k0 := IdKey(data[last]).value;
    if k != k0 {
      if j < last {
        assert data[j] == init[j];
        IndexLastWins(init, k, j);
      }
    }
  }

  /** The ID branch of `_filter_data`: the index's row for each requested ID,
      IDs not in the index skipped. */
  function SelectIds(data: seq<Record>, ids: seq<string>, index: map<string, int>): (r: seq<Record>)
    requires IndexInRange(index, |data|)
    ensures forall row :: row in r ==> row in data
  {
    if ids == [] then []
    else
      var id := ids[|ids| - 1];
      SelectIds(data, ids[..|ids| - 1], index) + (if id in index then [data[index[id]]] else [])
  }

  /** Selection is taken ID by ID in request order: a concatenation of requests
      selects the concatenation, so repeated IDs give repeated rows. */
  lemma {:induction false} SelectIdsByRequest(data: seq<Record>, a: seq<string>, b: seq<string>, index: map<string, int>)
    requires IndexInRange(index, |data|)
    ensures SelectIds(data, a + b, index) == SelectIds(data, a, index) + SelectIds(data, b, index)
    decreases |b|
  {
    if b == [] {
      assert a + b == a;
    } else {
      var b' := b[..|b| - 1];
      var id := b[|b| - 1];
      var tail := if id in index then [data[index[id]]] else [];
      assert (a + b)[..|a + b| - 1] == a + b';
      assert (a + b)[|a + b| - 1] == id;
      calc {
        SelectIds(data, a + b, index);
        SelectIds(data, a + b', index) + tail;
        { SelectIdsByRequest(data, a, b', index); }
        SelectIds(data, a, index) + SelectIds(data, b', index) + tail;
        SelectIds(data, a, index) + SelectIds(data, b, index);
      }
    }
  }

  /** An ID alone selects its row, or nothing when it is not in the index. */
  lemma SelectOneId(data: seq<Record>, id: string, index: map<string, int>)
    requires IndexInRange(index, |data|)
    ensures SelectIds(data, [id], index) == if id in index then [data[index[id]]] else []
  {
    assert [id][..0] == [];
  }

  /** When every requested ID is known, the selection has one row per ID, in
      request order. */
  lemma {:induction false} SelectKnownIds(data: seq<Record>, ids: seq<string>, index: map<string, int>)
    requires IndexInRange(index, |data|)
    requires forall id :: id in ids ==> id in index
    ensures |SelectIds(data, ids, index)| == |ids|
    ensures forall i :: 0 <= i < |ids| ==> SelectIds(data, ids, index)[i] == data[index[ids[i]]]
  {
    if ids != [] {
      var init := ids[..|ids| - 1];
      assert forall id :: id in init ==> id in ids;
      SelectKnownIds(data, init, index);
    }
  }

  /** With the index built from the data, the row selected for an ID carries
      that ID, and no later row does. */
  lemma SelectKnownIdsLastRow(data: seq<Record>, ids: seq<string>, index: map<string, int>, i: int, j: int)
    requires FlatRows(data) && BuildIndex(data) == Some(index)
    requires forall id :: id in ids ==> id in index
    requires 0 <= i < |ids| && index[ids[i]] < j < |data|
    ensures |SelectIds(data, ids, index)| == |ids|
    ensures IdKey(SelectIds(data, ids, index)[i]) == Some(ids[i])
    ensures IdKey(data[j]) != Some(ids[i])
  {
    SelectKnownIds(data, ids, index);
    IndexPointsAtId(data, ids[i]);
    IndexLastWins(data, ids[i], j);
  }

  /** `row_range.get("start", 0)` and `row_range.get("end", len(data))`. */
  function RangeStart(rowRange: map<string, int>): int
  {
    if "start" in rowRange then rowRange["start"] else 0
  }

  function RangeEnd(rowRange: map<string, int>, n: int): int
  {
    if "end" in rowRange then rowRange["end"] else n
  }

  predicate SelectsIds(cfg: ProcessingRequest)
  {
    cfg.mode == ProductIdLookup && cfg.productIds.Some? && |cfg.productIds.value| > 0
  }

  predicate SelectsRange(cfg: ProcessingRequest)
  {
    cfg.rowRange.Some? && |cfg.rowRange.value| > 0
  }

  /** `_filter_data` */
  function Filtered(data: seq<Record>, cfg: ProcessingRequest, index: map<string, int>): (r: seq<Record>)
    requires IndexInRange(index, |data|)
    ensures forall row :: row in r ==> row in data
  {
    if SelectsIds(cfg) then SelectIds(data, cfg.productIds.value, index)
    else if SelectsRange(cfg) then PySlice(data, RangeStart(cfg.rowRange.value), RangeEnd(cfg.rowRange.value, |data|))
    else data
  }

  method FilterData(data: seq<Record>, cfg: ProcessingRequest, index: map<string, int>) returns (filtered: seq<Record>)
    requires IndexInRange(index, |data|)
    ensures filtered == Filtered(data, cfg, index)
  {
    if cfg.mode == ProductIdLookup && cfg.productIds.Some? && |cfg.productIds.value| > 0 {
      var ids := cfg.productIds.value;
      filtered := [];
      var i := 0;
      while i < |ids|
        invariant 0 <= i <= |ids|
        invariant filtered == SelectIds(data, ids[..i], index)
      {
        var id := ids[i];
        if id in index {
          filtered := filtered + [data[index[id]]];
        }
        assert ids[..i + 1][..i] == ids[..i];
        i := i + 1;
      }
      assert ids[..|ids|] == ids;
    } else if cfg.rowRange.Some? && |cfg.rowRange.value| > 0 {
      var start := RangeStart(cfg.rowRange.value);
      var end := RangeEnd(cfg.rowRange.value, |data|);
      filtered := PySlice(data, start, end);
    } else {
      filtered := data;
    }
  }

  /** The value `_clean_data` stores for a cell: "" for a missing cell, else its
      trimmed string form. */
  function CleanCell(v: Value): (c: string)
    requires IsScalar(v)
    ensures Stripped(c)
    ensures !IsNa(v) ==> exists i, j :: 0 <= i <= j <= |ScalarStr(v)| && c == ScalarStr(v)[i..j]
  {
    if IsNa(v) then ""
    else
      StripResult(ScalarStr(v));
      Strip(ScalarStr(v))
  }

  /** Every value a cleaned string with no whitespace at either end. */
  predicate Cleaned(r: Record)
  {
    forall i :: 0 <= i < |r| ==> r[i].1.Str? && Stripped(r[i].1.s)
  }

  /** `cleaned_row` after visiting the cells of `r` in order. */
  function CleanRow(r: Record): (c: Record)
    requires FlatRow(r)
    ensures UniqueKeys(c) && Cleaned(c) && FlatRow(c)
  {
    if r == [] then []
    else
      var last := |r| - 1;
      var prev := CleanRow(r[..last]);
      var c := Set(prev, r[last].0, Str(CleanCell(r[last].1)));
      SetKeys(prev, r[last].0, Str(CleanCell(r[last].1)));
      StripResult(ScalarStr(r[last].1));
      assert forall p :: p in c ==> p.1.Str? && Stripped(p.1.s);
      c
  }

  /** The same keys in the same order, each with its cell cleaned. */
  function CleanedPointwise(r: Record): Record
    requires FlatRow(r)
  {
    seq(|r|, i requires 0 <= i < |r| => (r[i].0, Str(CleanCell(r[i].1))))
  }

  /** For a dict row, cleaning keeps every key in place and cleans its value. */
  lemma {:induction false} CleanRowPointwise(r: Record)
    requires FlatRow(r) && UniqueKeys(r)
    ensures CleanRow(r) == CleanedPointwise(r)
  {
    if r != [] {
      var last := |r| - 1;
      var p := r[..last];
      assert forall i :: 0 <= i < |p| ==> p[i] == r[i];
      CleanRowPointwise(p);
      var cp := CleanRow(p);
      assert Keys(cp) == Keys(p);
      var key := r[last].0;
      assert key !in Keys(p);
      var cell := Str(CleanCell(r[last].1));
      SetAbsent(cp, key, cell);
      assert CleanRow(r) == cp + [(key, cell)];
      CleanedPointwiseSnoc(r);
    }
  }

  lemma CleanedPointwiseSnoc(r: Record)
    requires FlatRow(r) && r != []
    ensures var last := |r| - 1;
      CleanedPointwise(r) == CleanedPointwise(r[..last]) + [(r[last].0, Str(CleanCell(r[last].1)))]
  {
    var last := |r| - 1;
    assert forall i :: 0 <= i < last ==> r[..last][i] == r[i];
  }

  /** `_clean_data`, as a function of its input rows. */
  function CleanRows(rows: seq<Record>): (c: seq<Record>)
    requires FlatRows(rows)
    ensures |c| == |rows| && FlatRows(c)
  {
    seq(|rows|, i requires 0 <= i < |rows| => CleanRow(rows[i]))
  }

  /** Cleaning keeps the number and order of rows and each row's keys. */
  lemma CleanRowsShape(rows: seq<Record>)
    requires FlatRows(rows)
    requires forall r :: r in rows ==> UniqueKeys(r)
    ensures |CleanRows(rows)| == |rows|
    ensures forall i :: 0 <= i < |rows| ==>
      Keys(CleanRows(rows)[i]) == Keys(rows[i]) && CleanRows(rows)[i] == CleanedPointwise(rows[i])
  {
    forall i | 0 <= i < |rows|
      ensures Keys(CleanRows(rows)[i]) == Keys(rows[i]) && CleanRows(rows)[i] == CleanedPointwise(rows[i])
    {
      CleanRowPointwise(rows[i]);
    }
  }

  /** Cleaning an already cleaned row changes nothing. */
  lemma CleanRowIdempotent(r: Record)
    requires FlatRow(r)
    ensures CleanRow(CleanRow(r)) == CleanRow(r)
  {
    var c := CleanRow(r);
    CleanRowPointwise(c);
    forall i | 0 <= i < |c| ensures CleanCell(c[i].1) == c[i].1.s {
      StripKeepsStripped(c[i].1.s);
    }
  }

  lemma CleanRowsIdempotent(rows: seq<Record>)
    requires FlatRows(rows)
    ensures CleanRows(CleanRows(rows)) == CleanRows(rows)
  {
    forall i | 0 <= i < |rows| ensures CleanRow(CleanRow(rows[i])) == CleanRow(rows[i]) {
      CleanRowIdempotent(rows[i]);
    }
  }

  /** `_clean_data` */
  method CleanData(data: seq<Record>) returns (cleaned: seq<Record>)
    requires FlatRows(data)
    ensures cleaned == CleanRows(data)
  {
    cleaned := [];
    var n := 0;
    while n < |data|
      invariant 0 <= n <= |data|
      invariant |cleaned| == n
      invariant forall t :: 0 <= t < n ==> cleaned[t] == CleanRow(data[t])
    {
      assert data[n] in data;
      var cleanedRow := CleanRowData(data[n]);
      cleaned := cleaned + [cleanedRow];
      n := n + 1;
    }
  }

  /** The inner loop of `_clean_data`, over one row's items. */
  method CleanRowData(row: Record) returns (cleanedRow: Record)
    requires FlatRow(row)
    ensures cleanedRow == CleanRow(row)
  {
    cleanedRow := [];
    var j := 0;
    while j < |row|
      invariant 0 <= j <= |row|
      invariant cleanedRow == CleanRow(row[..j])
    {
      var key, value := row[j].0, row[j].1;
      if IsNa(value) {
        cleanedRow := Set(cleanedRow, key, Str(""));
      } else {
        cleanedRow := Set(cleanedRow, key, Str(Strip(ScalarStr(value))));
      }
      assert row[..j + 1][..j] == row[..j];
      assert row[..j + 1][j] == row[j];
      assert cleanedRow == CleanRow(row[..j + 1]);
      j := j + 1;
    }
    assert row[..|row|] == row;
  }

  /** The metadata `preprocess` adds to what it received. */
  function PreprocessMetadata(m: map<string, Meta>, index: map<string, int>, processed: nat, original: nat): map<string, Meta>
  {
    m["product_index" := ProductIndex(index)]["processed_count" := Count(processed)]["original_count" := Count(original)]
  }

  /** `preprocess`. A row without a product ID raises in the index; the except
      handler then raises a TypeError of its own, which escapes the stage. */
  function Preprocessed(state: AgentState): Outcome<AgentState>
    requires state.data.Some? ==> FlatRows(state.data.value)
  {
    if HasError(state) || !NonEmpty(state.data) then Done(state)
    else
      var data := state.data.value;
      match BuildIndex(data)
      case None => Raised(DuplicateErrorKeyword)
      case Some(index) =>
        var filtered := if state.taskConfig.Some? then Filtered(data, state.taskConfig.value, index) else data;
        var processed := CleanRows(filtered);
        Done(AgentState(state.filePath, state.data, Some(processed), state.taskConfig, None, None,
                        PreprocessMetadata(state.metadata, index, |processed|, |data|)))
  }

  method Preprocess(state: AgentState) returns (out: Outcome<AgentState>)
    requires state.data.Some? ==> FlatRows(state.data.value)
    ensures out == Preprocessed(state)
  {
    if HasError(state) || state.data.None? || |state.data.value| == 0 {
      return Done(state);
    }
    var data := state.data.value;
    var index := BuildIndex(data);
    if index.None? {
      return Raised(DuplicateErrorKeyword);
    }
    var filtered: seq<Record>;
    if state.taskConfig.Some? {
      filtered := FilterData(data, state.taskConfig.value, index.value);
    } else {
      filtered := data;
    }
    var processed := CleanData(filtered);
    out := Done(AgentState(state.filePath, state.data, Some(processed), state.taskConfig, None, None,
                           PreprocessMetadata(state.metadata, index.value, |processed|, |data|)));
  }

  /** A state with an error, or with no rows, is handed on unchanged. */
  lemma PreprocessPassesThrough(state: AgentState)
    requires state.data.Some? ==> FlatRows(state.data.value)
    requires HasError(state) || !NonEmpty(state.data)
    ensures Preprocessed(state) == Done(state)
  {
  }

  /** A row without a product ID makes the stage raise. */
  lemma PreprocessMissingId(state: AgentState, j: int)
    requires state.data.Some? && FlatRows(state.data.value)
    requires !HasError(state) && 0 <= j < |state.data.value| && IdKey(state.data.value[j]).None?
    ensures Preprocessed(state) == Raised(DuplicateErrorKeyword)
  {
    IndexFailsOnMissingId(state.data.value);
  }

  /** On success the file path, the rows and the request are kept, the results
      are dropped, `processed_data` is the cleaned selection, and the processed
      and original counts are recorded beside the earlier metadata. */
  lemma PreprocessSuccess(state: AgentState)
    requires state.data.Some? && FlatRows(state.data.value)
    requires Preprocessed(state).Done? && !HasError(state) && NonEmpty(state.data)
    ensures var s := Preprocessed(state).value;
      var index := BuildIndex(state.data.value).value;
      && s.filePath == state.filePath && s.data == state.data && s.taskConfig == state.taskConfig
      && s.results.None? && s.error.None? && s.processedData.Some?
      && s.processedData.value == CleanRows(if state.taskConfig.Some? then Filtered(state.data.value, state.taskConfig.value, index) else state.data.value)
      && s.metadata["processed_count"] == Count(|s.processedData.value|)
      && s.metadata["original_count"] == Count(|state.data.value|)
      && s.metadata["product_index"] == ProductIndex(index)
      && forall k :: k in state.metadata && k !in {"product_index", "processed_count", "original_count"} ==> s.metadata[k] == state.metadata[k]
  {
  }

  /** The rows pass through the selection unchanged (then cleaned) without a
      request, in batch mode without a row range, and in ID mode with no IDs
      and no row range. */
  lemma PreprocessKeepsAllRows(state: AgentState)
    requires state.data.Some? && FlatRows(state.data.value)
    requires !HasError(state) && NonEmpty(state.data) && BuildIndex(state.data.value).Some?
    requires || state.taskConfig.None?
             || (state.taskConfig.value.mode == Batch && !SelectsRange(state.taskConfig.value))
             || (state.taskConfig.value.mode == ProductIdLookup && !SelectsIds(state.taskConfig.value)
                 && !SelectsRange(state.taskConfig.value))
    ensures Preprocessed(state).Done?
    ensures Preprocessed(state).value.processedData == Some(CleanRows(state.data.value))
  {
  }

  /** In ID mode with IDs, the rows are the selected ones in request order. */
  lemma PreprocessSelectsIds(state: AgentState)
    requires state.data.Some? && FlatRows(state.data.value)
    requires !HasError(state) && NonEmpty(state.data) && BuildIndex(state.data.value).Some?
    requires state.taskConfig.Some? && SelectsIds(state.taskConfig.value)
    ensures Preprocessed(state).Done?
    ensures Preprocessed(state).value.processedData
            == Some(CleanRows(SelectIds(state.data.value, state.taskConfig.value.productIds.value,
                                        BuildIndex(state.data.value).value)))
  {
  }

  /** Otherwise a non-empty row range selects the slice `data[start:end]`; for
      non-negative bounds that is max(0, min(end, N) - min(start, N)) rows. */
  lemma PreprocessSelectsRange(state: AgentState)
    requires state.data.Some? && FlatRows(state.data.value)
    requires !HasError(state) && NonEmpty(state.data) && BuildIndex(state.data.value).Some?
    requires state.taskConfig.Some? && !SelectsIds(state.taskConfig.value) && SelectsRange(state.taskConfig.value)
    ensures var data, rr := state.data.value, state.taskConfig.value.rowRange.value;
      var start, end := RangeStart(rr), RangeEnd(rr, |data|);
      && Preprocessed(state).Done?
      && Preprocessed(state).value.processedData == Some(CleanRows(PySlice(data, start, end)))
      && (0 <= start && 0 <= end ==>
            |Preprocessed(state).value.processedData.value| == Max(0, Min(end, |data|) - Min(start, |data|)))
  {
    var data, rr := state.data.value, state.taskConfig.value.rowRange.value;
    var start, end := RangeStart(rr), RangeEnd(rr, |data|);
    if 0 <= start && 0 <= end {
      PySliceNonNegative(data, start, end);
    }
  }
}
