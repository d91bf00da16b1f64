/**
 * What the report preview shows (src/components/ReportBuilder.tsx): which table columns, which
 * rows and cells, the "+N more rows" note, the text of a text block, and the chart kind.
 */
module ReportPreview {
  import opened Wrappers
  import opened JsText
  import opened Seqs

  datatype Column = Column(id: string, caption: string)

  datatype ChartCategory = Site | WorkStatus | Status | Type

  /** Rows shown in the preview table at most. */
  const PreviewRowLimit: nat := 12

  /** The placeholder for a missing cell or an empty text block. */
  const Dash: string := "—"

  /** The chart is a pie exactly for the status and type categories, a bar chart otherwise. */
  function IsPie(c: ChartCategory): (pie: bool)
    ensures pie <==> c in {Status, Type}
  {
    c == Status || c == Type
  }

  /** `selectedColumns.length ? selectedColumns : tableColumns.map((c) => c.id)`. */
  function EffectiveSelection(tableColumns: seq<Column>, selected: seq<string>): (ids: seq<string>)
    ensures selected != [] ==> ids == selected
    ensures selected == [] ==> |ids| == |tableColumns| && forall i :: 0 <= i < |ids| ==> ids[i] == tableColumns[i].id
  {
    if selected != [] then selected else seq(|tableColumns|, i requires 0 <= i < |tableColumns| => tableColumns[i].id)
  }

  /** `tableColumns.filter((c) => selectedColumns.includes(c.id))`. */
  function PreviewColumns(tableColumns: seq<Column>, selected: seq<string>): seq<Column> {
    Filter(tableColumns, (c: Column) => c.id in EffectiveSelection(tableColumns, selected))
  }

  /**
   * The preview's columns follow the table's column order, not the order of selection; they are
   * the selected ones, or all of them when nothing is selected.
   */
  lemma PreviewColumnsSpec(tableColumns: seq<Column>, selected: seq<string>)
    ensures IsSubsequence(PreviewColumns(tableColumns, selected), tableColumns)
    ensures forall c :: c in PreviewColumns(tableColumns, selected) <==>
              c in tableColumns && (selected == [] || c.id in selected)
    ensures selected == [] ==> PreviewColumns(tableColumns, selected) == tableColumns
  {
    var ids := EffectiveSelection(tableColumns, selected);
    var keep := (c: Column) => c.id in ids;
    FilterIsSubsequence(tableColumns, keep);
    if selected == [] {
      forall c | c in tableColumns ensures keep(c) {
        var k :| 0 <= k < |tableColumns| && tableColumns[k] == c;
        assert ids[k] == c.id;
      }
      FilterKeepsAll(tableColumns, keep);
    }
    forall c ensures c in PreviewColumns(tableColumns, selected) <==> c in tableColumns && (selected == [] || c.id in selected) {
      FilterMembership(tableColumns, keep, c);
    }
  }

  /** The order in which columns were selected does not matter. */
  lemma SelectionOrderIrrelevant(tableColumns: seq<Column>, selected: seq<string>, selected': seq<string>)
    requires selected != [] && selected' != []
    requires forall id :: id in selected <==> id in selected'
    ensures PreviewColumns(tableColumns, selected) == PreviewColumns(tableColumns, selected')
  {
    FilterSamePredicate(tableColumns, (c: Column) => c.id in EffectiveSelection(tableColumns, selected),
                        (c: Column) => c.id in EffectiveSelection(tableColumns, selected'));
  }

  /** The column count shown on the editor's table block: the selection's length, or every column. */
  function SelectedColumnsCount(tableColumns: seq<Column>, selected: seq<string>): (n: nat)
    ensures n == |EffectiveSelection(tableColumns, selected)|
    ensures n == 0 <==> selected == [] && tableColumns == []
  {
    if |selected| > 0 then |selected| else |tableColumns|
  }

  /** `tableRows.slice(0, 12)`. */
  function DisplayRows<R>(rows: seq<R>): (shown: seq<R>)
    ensures |shown| <= PreviewRowLimit && shown <= rows
    ensures |rows| <= PreviewRowLimit ==> shown == rows
    ensures |rows| > PreviewRowLimit ==> |shown| == PreviewRowLimit
  {
    if |rows| <= PreviewRowLimit then rows else rows[..PreviewRowLimit]
  }

  /** The "+N more rows" note: present iff the total exceeds the rows shown, N being the difference. */
  function MoreRowsNote(tableRowCount: int, shownCount: nat): (n: Option<int>)
    ensures n.Some? <==> tableRowCount > shownCount
    ensures n.Some? ==> 0 < n.value && shownCount + n.value == tableRowCount
  {
    if tableRowCount > shownCount then Some(tableRowCount - shownCount) else None
  }

  /** With the total equal to the rows supplied, the note counts exactly the rows cut off. */
  lemma MoreRowsCountsCutRows<R>(rows: seq<R>)
    ensures var n := MoreRowsNote(|rows|, |DisplayRows(rows)|);
      (n.Some? <==> |rows| > PreviewRowLimit) && (n.Some? ==> n.value == |rows| - PreviewRowLimit)
  {
  }

  /** `row[c.id] ?? "—"`: a missing key shows the dash; an empty string stays empty. */
  function CellText(row: map<string, string>, columnId: string): (t: string)
    ensures columnId in row ==> t == row[columnId]
    ensures columnId !in row ==> t == Dash
  {
    if columnId in row then row[columnId] else Dash
  }

  /** The preview table body: the shown rows, each with one cell per preview column. */
  function PreviewCells(rows: seq<map<string, string>>, cols: seq<Column>): (cells: seq<seq<string>>)
    ensures |cells| == |DisplayRows(rows)|
    ensures forall i :: 0 <= i < |cells| ==> |cells[i]| == |cols|
    ensures forall i, j :: 0 <= i < |cells| && 0 <= j < |cols| ==> cells[i][j] == CellText(rows[i], cols[j].id)
  {
    var shown := DisplayRows(rows);
    seq(|shown|, i requires 0 <= i < |shown| => seq(|cols|, j requires 0 <= j < |cols| => CellText(shown[i], cols[j].id)))
  }

  /** `block.text?.trim() || "—"`. */
  function TextPreview(text: Option<string>): string {
    if text.None? || Trim(text.value) == [] then Dash else Trim(text.value)
  }

  /** A text block previews its trimmed text, or the dash when it has none or only whitespace. */
  lemma TextPreviewSpec(text: Option<string>)
    ensures text.None? || AllWhitespace(text.value) ==> TextPreview(text) == Dash
    ensures text.Some? && !AllWhitespace(text.value) ==>
              TextPreview(text) == Trim(text.value) && TextPreview(text) != [] && IsTrimmed(TextPreview(text))
  {
    if text.Some? {
      TrimSpec(text.value);
    }
  }

  /** Surrounding whitespace never changes the preview. */
  lemma TextPreviewIgnoresSurroundingSpace(s: string)
    ensures TextPreview(Some(Trim(s))) == TextPreview(Some(s))
  {
    TrimIdempotent(s);
  }
}
