/** The cell-scanning helpers (jupyter_ai_agents/utils.py): listings of a notebook's cells,
    in order, that stop at a given index or at the first cell whose first output is an error,
    and the http-to-websocket URL rewrite. */
module CellScan {
  import opened Json

  /** One output of a code cell: its `output_type` and, for an error, its traceback lines. */
  datatype Output = Output(outputType: string, traceback: seq<string>)

  /** A cell of the shared notebook: its type, its source text and, when the cell has the key,
      its outputs. */
  datatype Cell = Cell(cellType: string, source: string, outputs: Option<seq<Output>>)

  /** `(index, cell_type, source)` */
  datatype Entry = Entry(index: nat, cellType: string, source: string)

  /** `(index, cell_type, source, traceback)` of the cell that stopped a scan. */
  datatype CellError = CellError(index: nat, cellType: string, source: string, traceback: seq<string>)

  /** The error flag: the cell has outputs, at least one, and the first is an error. */
  predicate IsErrorCell(cell: Cell) {
    cell.outputs.Some? && |cell.outputs.value| > 0 && cell.outputs.value[0].outputType == "error"
  }

  function EntryAt(cells: seq<Cell>, i: nat): Entry
    requires i < |cells|
  {
    Entry(i, cells[i].cellType, cells[i].source)
  }

  function ErrorAt(cells: seq<Cell>, i: nat): CellError
    requires i < |cells| && IsErrorCell(cells[i])
  {
    CellError(i, cells[i].cellType, cells[i].source, cells[i].outputs.value[0].traceback)
  }

  /** The entries of the first `n` cells. */
  function Prefix(cells: seq<Cell>, n: nat): (r: seq<Entry>)
    requires n <= |cells|
    ensures |r| == n
  {
    seq(n, i requires 0 <= i < n => EntryAt(cells, i))
  }

  /** Where `retrieve_cells_content` stops: at `stop` when a cell has that index, otherwise
      after the last cell (-1, any other negative index and any index past the end). */
  function StopAt(cells: seq<Cell>, stop: int): (n: nat)
    ensures n <= |cells|
  {
    if 0 <= stop < |cells| then stop else |cells|
  }

  /** The position of the first flagged cell, or the number of cells when none is flagged. */
  function FirstError(cells: seq<Cell>): (n: nat)
    ensures n <= |cells|
    ensures forall j | 0 <= j < n :: !IsErrorCell(cells[j])
    ensures n < |cells| ==> IsErrorCell(cells[n])
    decreases |cells|
  {
    if cells == [] then 0
    else if IsErrorCell(cells[0]) then 0
    else
      assert forall j | 1 <= j < |cells| :: cells[j] == cells[1..][j - 1];
      1 + FirstError(cells[1..])
  }

  /** What `retrieve_cells_content_error` returns: the scan stops only when the cell at
      `stop` is flagged. */
  function ContentError(cells: seq<Cell>, stop: int): (seq<Entry>, Option<CellError>) {
    if 0 <= stop < |cells| && IsErrorCell(cells[stop]) then (Prefix(cells, stop), Some(ErrorAt(cells, stop)))
    else (Prefix(cells, |cells|), None)
  }

  /** What `retrieve_cells_content_until_first_error` returns. */
  function ContentUntilFirstError(cells: seq<Cell>): (seq<Entry>, Option<CellError>) {
    var n := FirstError(cells);
    if n < |cells| then (Prefix(cells, n), Some(ErrorAt(cells, n))) else (Prefix(cells, n), None)
  }

  /** `retrieve_cells_content(notebook, cell_index_stop)` */
  method RetrieveCellsContent(cells: seq<Cell>, stop: int) returns (content: seq<Entry>)
    ensures content == Prefix(cells, StopAt(cells, stop))
  {
    content := [];
    var index := 0;
    while index < |cells|
      invariant 0 <= index <= |cells|
      invariant index <= StopAt(cells, stop)
      invariant content == Prefix(cells, index)
    {
      if stop != -1 && index == stop {
        break;
      }
      content := content + [EntryAt(cells, index)];
      index := index + 1;
    }
  }

  /** `retrieve_cells_content_error(notebook, cell_index_stop)` */
  method RetrieveCellsContentError(cells: seq<Cell>, stop: int) returns (content: seq<Entry>, error: Option<CellError>)
    ensures (content, error) == ContentError(cells, stop)
  {
    content := [];
    error := None;
    var index := 0;
    while index < |cells|
      invariant 0 <= index <= |cells|
      invariant content == Prefix(cells, index)
      invariant 0 <= stop < index ==> !IsErrorCell(cells[stop])
      invariant error == None
    {
      var errorFlag := cells[index].outputs.Some? && |cells[index].outputs.value| > 0
        && cells[index].outputs.value[0].outputType == "error";
      if index == stop && errorFlag {
        error := Some(ErrorAt(cells, index));
        return;
      }
      content := content + [EntryAt(cells, index)];
      index := index + 1;
    }
  }

  /** `retrieve_cells_content_until_first_error(notebook)` */
  method RetrieveCellsContentUntilFirstError(cells: seq<Cell>) returns (content: seq<Entry>, error: Option<CellError>)
    ensures (content, error) == ContentUntilFirstError(cells)
  {
    content := [];
    error := None;
    var index := 0;
    while index < |cells|
      invariant 0 <= index <= FirstError(cells)
      invariant content == Prefix(cells, index)
      invariant error == None
    {
      if cells[index].outputs.Some? && |cells[index].outputs.value| > 0
        && cells[index].outputs.value[0].outputType == "error" {
        error := Some(ErrorAt(cells, index));
        return;
      }
      content := content + [EntryAt(cells, index)];
      index := index + 1;
    }
  }

  /** With the default stop of -1, one entry per cell, numbered from 0, in order. */
  lemma ContentListsEveryCell(cells: seq<Cell>)
    ensures var content := Prefix(cells, StopAt(cells, -1));
      |content| == |cells|
      && forall i | 0 <= i < |cells| :: content[i] == Entry(i, cells[i].cellType, cells[i].source)
  {
  }

  /** The cell indices a listing mentions. */
  function Indices(content: seq<Entry>): set<nat> {
    set e | e in content :: e.index
  }

  /** With any stop, exactly the cells whose index is below it (all of them for a negative
      stop). */
  lemma ContentStopsBefore(cells: seq<Cell>, stop: int)
    ensures forall i :: i in Indices(Prefix(cells, StopAt(cells, stop))) <==> 0 <= i < |cells| && (stop < 0 || i < stop)
  {
    var content := Prefix(cells, StopAt(cells, stop));
    forall i | 0 <= i < |cells| && (stop < 0 || i < stop) ensures i in Indices(content) {
      assert content[i].index == i;
    }
  }

  /** The stop-at-error scan stops at a flagged stop cell and otherwise lists every cell: it
      never stops at an unflagged one. */
  lemma ContentErrorStops(cells: seq<Cell>, stop: int)
    ensures var (content, error) := ContentError(cells, stop);
      (error.Some? <==> 0 <= stop < |cells| && IsErrorCell(cells[stop]))
      && (error.Some? ==>
            |content| == stop && error.value.index == stop
            && error.value.traceback == cells[stop].outputs.value[0].traceback)
      && (error.None? ==> |content| == |cells|)
  {
  }

  /** Scanning until the first error is scanning up to the first flagged cell: the error
      entry, when there is one, sits right after the listed prefix, and no listed cell is
      flagged. */
  lemma UntilFirstErrorShape(cells: seq<Cell>)
    ensures var (content, error) := ContentUntilFirstError(cells);
      (error.Some? <==> exists j | 0 <= j < |cells| :: IsErrorCell(cells[j]))
      && (error.Some? ==> error.value.index == |content| && IsErrorCell(cells[|content|]))
      && (error.None? ==> |content| == |cells|)
      && forall i | 0 <= i < |content| :: content[i].index == i && !IsErrorCell(cells[content[i].index])
  {
  }

  /** The stop-at-error scan given the first flagged index agrees with the scan until the first
      error. */
  lemma UntilFirstErrorIsStopAtFirst(cells: seq<Cell>)
    ensures ContentUntilFirstError(cells) == ContentError(cells, FirstError(cells))
  {
  }

  // ---------------------------------------------------------------------------
  // http_to_ws
  // ---------------------------------------------------------------------------

  predicate StartsWith(s: string, prefix: string) {
    |prefix| <= |s| && s[..|prefix|] == prefix
  }

  /** `re.sub("^http", "ws", s)`: the pattern is anchored, so only a leading "http" is
      replaced, once. */
  function HttpToWs(s: string): string {
    if StartsWith(s, "http") then "ws" + s[4..] else s
  }

  /** Leading "http" becomes "ws" (so "https" becomes "wss"); the rest is kept, and any other
      string is left alone. */
  lemma HttpToWsRewrite(s: string)
    ensures StartsWith(s, "http") ==> HttpToWs(s) == "ws" + s[4..]
    ensures !StartsWith(s, "http") ==> HttpToWs(s) == s
    ensures HttpToWs(s) == s <==> !StartsWith(s, "http")
  {
    if StartsWith(s, "http") {
      assert HttpToWs(s)[..2] == "ws" && s[..2] == "ht";
    }
  }

  lemma HttpToWsPlain(host: string)
    ensures HttpToWs("http://" + host) == "ws://" + host
  {
    var url := "http://" + host;
    assert url[..4] == "http";
    assert url[4..] == "://" + host;
  }

  lemma HttpToWsSecure(host: string)
    ensures HttpToWs("https://" + host) == "wss://" + host
  {
    var url := "https://" + host;
    assert url[..4] == "http";
    assert url[4..] == "s://" + host;
  }

  /** A websocket URL is not rewritten again. */
  lemma HttpToWsStable(s: string)
    requires StartsWith(s, "ws")
    ensures HttpToWs(s) == s
  {
    assert s[0] == 'w';
  }
}
