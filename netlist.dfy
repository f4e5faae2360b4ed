/**
 * The network table image: one row per discovered host, holding its short
 * host name and its address, drawn as text cells on a 600x448 canvas.
 * The subnet scan is not modelled: its result is the list of hosts given.
 */
module NetTable {

  /** A host as the scan reports it: its resolved name (possibly empty) and its address. */
  datatype Host = Host(hostname: string, address: string)

  /** One table cell's `draw.text` call: integer pixel position, text and font size (the calendar's draws, in Calendar, carry a real point and a font file instead). */
  datatype CellText = CellText(x: int, y: int, text: string, fontSize: int)

  /** A white canvas and the text drawn on it, in order. */
  datatype NetImage = NetImage(width: int, height: int, draws: seq<CellText>)

  /** `hostname.split('.')[0]`: the text before the first dot. */
  function ShortHostname(name: string): (short: string)
    ensures short <= name
    ensures '.' !in short
    ensures '.' !in name ==> short == name
    ensures '.' in name ==> |short| < |name| && name[|short|] == '.'
  {
    if name == [] || name[0] == '.' then [] else [name[0]] + ShortHostname(name[1..])
  }

  /** The table rows: `[short host name, address]` for each host, in scan order. */
  function HostRows(hosts: seq<Host>): (rows: seq<seq<string>>)
    ensures |rows| == |hosts|
    ensures forall i :: 0 <= i < |hosts| ==> |rows[i]| == 2
    ensures forall i :: 0 <= i < |hosts| ==>
      rows[i][0] == ShortHostname(hosts[i].hostname) && rows[i][1] == hosts[i].address
  {
    seq(|hosts|, i requires 0 <= i < |hosts| => [ShortHostname(hosts[i].hostname), hosts[i].address])
  }

  /** The number of cells in the rows before row i. */
  function CellsBefore(data: seq<seq<string>>, i: nat): nat
    requires i <= |data|
  {
    if i == 0 then 0 else CellsBefore(data, i - 1) + |data[i - 1]|
  }

  /** The number of cells in the whole table: the sum of the row lengths. */
  function CellCount(data: seq<seq<string>>): nat {
    CellsBefore(data, |data|)
  }

  /** Where `draw_table_on_image` puts the table: its top-left corner, the cell size and the font size. */
  datatype TableLayout = TableLayout(startX: int, startY: int, cellHeight: int, cellWidth: int, fontSize: int)

  /** The command for cell (i, j): its text 5 pixels right of and below the cell's top-left corner. */
  function CellDraw(layout: TableLayout, i: int, j: int, text: string): CellText {
    CellText(layout.startX + j * layout.cellWidth + 5, layout.startY + i * layout.cellHeight + 5, text, layout.fontSize)
  }

  /** The first n cells of row i are drawn, in order, at the commands that follow the earlier rows' cells. */
  ghost predicate RowDrawn(draws: seq<CellText>, data: seq<seq<string>>, layout: TableLayout, i: nat, n: nat)
    requires i < |data| && n <= |data[i]|
  {
    CellsBefore(data, i) + n <= |draws| &&
    forall j :: 0 <= j < n ==> draws[CellsBefore(data, i) + j] == CellDraw(layout, i, j, data[i][j])
  }

  /** Every cell of row i is drawn. */
  ghost predicate RowComplete(draws: seq<CellText>, data: seq<seq<string>>, layout: TableLayout, i: nat)
    requires i < |data|
  {
    RowDrawn(draws, data, layout, i, |data[i]|)
  }

  /** All cells of the rows before row k are drawn. */
  ghost predicate RowsDrawn(draws: seq<CellText>, data: seq<seq<string>>, layout: TableLayout, k: nat)
    requires k <= |data|
  {
    forall i :: 0 <= i < k ==> RowComplete(draws, data, layout, i)
  }

  /** `draws` holds exactly one command per cell of `data`, in row-major order. */
  ghost predicate DrawsTable(draws: seq<CellText>, data: seq<seq<string>>, layout: TableLayout)
  {
    |draws| == CellCount(data) && RowsDrawn(draws, data, layout, |data|)
  }

  /** A drawn cell's command, taken out of `RowDrawn`. */
  lemma CellDrawn(draws: seq<CellText>, data: seq<seq<string>>, layout: TableLayout, i: nat, n: nat, j: nat)
    requires i < |data| && j < n <= |data[i]|
    requires RowDrawn(draws, data, layout, i, n)
    ensures CellsBefore(data, i) + j < |draws|
    ensures draws[CellsBefore(data, i) + j] == CellDraw(layout, i, j, data[i][j])
  {
  }

  /** Drawing more commands after them keeps drawn rows drawn. */
  lemma RowsDrawnExtended(prefix: seq<CellText>, draws: seq<CellText>, data: seq<seq<string>>, layout: TableLayout, k: nat)
    requires k <= |data| && prefix <= draws
    requires RowsDrawn(prefix, data, layout, k)
    ensures RowsDrawn(draws, data, layout, k)
  {
    forall i | 0 <= i < k
      ensures RowComplete(draws, data, layout, i)
    {
      assert RowComplete(prefix, data, layout, i);
      forall j | 0 <= j < |data[i]|
        ensures draws[CellsBefore(data, i) + j] == CellDraw(layout, i, j, data[i][j])
      {
        assert draws[CellsBefore(data, i) + j] == prefix[CellsBefore(data, i) + j];
      }
    }
  }

  /**
   * draw_table_on_image: for each row i and each cell j of it, one text draw
   * at (start_x + j * cell_width + 5, start_y + i * cell_height + 5).
   */
  method DrawTable(data: seq<seq<string>>, startX: int, startY: int,
                   cellHeight: int := 30, cellWidth: int := 200, fontSize: int := 12)
    returns (draws: seq<CellText>)
    ensures DrawsTable(draws, data, TableLayout(startX, startY, cellHeight, cellWidth, fontSize))
  {
    ghost var layout := TableLayout(startX, startY, cellHeight, cellWidth, fontSize);
    draws := [];
    var i := 0;
    while i < |data|
      invariant 0 <= i <= |data|
      invariant |draws| == CellsBefore(data, i)
      invariant RowsDrawn(draws, data, layout, i)
    {
      var row := data[i];
      ghost var before := draws;
      var j := 0;
      while j < |row|
        invariant 0 <= j <= |row|
        invariant before <= draws
        invariant |draws| == CellsBefore(data, i) + j
        invariant RowDrawn(draws, data, layout, i, j)
      {
        var x := startX + j * cellWidth;
        var y := startY + i * cellHeight;
        draws := draws + [CellText(x + 5, y + 5, row[j], fontSize)];
        j := j + 1;
      }
      RowsDrawnExtended(before, draws, data, layout, i);
      assert RowComplete(draws, data, layout, i);
      i := i + 1;
    }
  }

  /** Rows before row i hold fewer cells than rows up to and including row i. */
  lemma {:induction false} CellsBeforeMonotone(data: seq<seq<string>>, i: nat, k: nat)
    requires i < k <= |data|
    ensures CellsBefore(data, i) + |data[i]| <= CellsBefore(data, k)
    decreases k - i
  {
    if i + 1 < k {
      CellsBeforeMonotone(data, i + 1, k);
    }
  }

  /** Every command index belongs to exactly one cell: the row whose cells span it. */
  lemma {:induction false} CommandCell(data: seq<seq<string>>, k: nat)
    requires k < CellCount(data)
    ensures exists i :: 0 <= i < |data| && CellsBefore(data, i) <= k < CellsBefore(data, i) + |data[i]|
    ensures forall i, i' :: 0 <= i < i' < |data| ==> CellsBefore(data, i) + |data[i]| <= CellsBefore(data, i')
  {
    forall i, i' | 0 <= i < i' < |data|
      ensures CellsBefore(data, i) + |data[i]| <= CellsBefore(data, i')
    {
      CellsBeforeMonotone(data, i, i');
    }
    var n := |data|;
    while CellsBefore(data, n - 1) > k
      invariant 0 < n <= |data|
      invariant k < CellsBefore(data, n)
      decreases n
    {
      n := n - 1;
    }
    assert CellsBefore(data, n - 1) <= k < CellsBefore(data, n - 1) + |data[n - 1]|;
  }

  /** With positive cell sizes, distinct cells are drawn at distinct positions, increasing down the rows and along the columns. */
  lemma CellPositionsDistinct(layout: TableLayout, i: int, j: int, i': int, j': int, t: string, t': string)
    requires layout.cellHeight > 0 && layout.cellWidth > 0
    ensures var a := CellDraw(layout, i, j, t);
      var b := CellDraw(layout, i', j', t');
      (i < i' ==> a.y < b.y) && (j < j' ==> a.x < b.x) && ((i, j) != (i', j') ==> (a.x, a.y) != (b.x, b.y))
  {
    if i < i' {
      assert i * layout.cellHeight < i' * layout.cellHeight;
    }
    if i' < i {
      assert i' * layout.cellHeight < i * layout.cellHeight;
    }
    if j < j' {
      assert j * layout.cellWidth < j' * layout.cellWidth;
    }
    if j' < j {
      assert j' * layout.cellWidth < j * layout.cellWidth;
    }
  }

  /** Each host row has two cells, so row i starts at command 2i. */
  lemma {:induction false} HostRowsCellsBefore(hosts: seq<Host>, i: nat)
    requires i <= |hosts|
    ensures CellsBefore(HostRows(hosts), i) == 2 * i
  {
    if i > 0 {
      HostRowsCellsBefore(hosts, i - 1);
    }
  }

  /** The layout get_network_image uses: from the origin, rows 45 pixels high, columns 300 pixels wide, font size 25. */
  const NetworkLayout: TableLayout := TableLayout(0, 0, 45, 300, 25)

  /** A drawn table has every row drawn. */
  lemma RowOfTable(draws: seq<CellText>, data: seq<seq<string>>, layout: TableLayout, i: nat)
    requires i < |data| && DrawsTable(draws, data, layout)
    ensures RowDrawn(draws, data, layout, i, |data[i]|)
  {
    assert RowComplete(draws, data, layout, i);
  }

  /** In the drawn host table, host i's name is drawn at (5, 45i + 5) and its address at (305, 45i + 5). */
  lemma HostRowDrawn(hosts: seq<Host>, draws: seq<CellText>, i: nat)
    requires i < |hosts|
    requires DrawsTable(draws, HostRows(hosts), NetworkLayout)
    ensures 2 * i + 1 < |draws|
    ensures draws[2 * i] == CellText(5, 45 * i + 5, ShortHostname(hosts[i].hostname), 25)
    ensures draws[2 * i + 1] == CellText(305, 45 * i + 5, hosts[i].address, 25)
  {
    var data := HostRows(hosts);
    var name, address := ShortHostname(hosts[i].hostname), hosts[i].address;
    assert data[i] == [name, address];
    HostRowsCellsBefore(hosts, i);
    RowOfTable(draws, data, NetworkLayout, i);
    CellDrawn(draws, data, NetworkLayout, i, 2, 0);
    CellDrawn(draws, data, NetworkLayout, i, 2, 1);
  }

  /** In the drawn host table, row i is at y = 45i + 5 with the name at x = 5 and the address at x = 305. */
  lemma HostTableDraws(hosts: seq<Host>, draws: seq<CellText>)
    requires DrawsTable(draws, HostRows(hosts), NetworkLayout)
    ensures |draws| == 2 * |hosts|
    ensures forall i :: 0 <= i < |hosts| ==>
      draws[2 * i] == CellText(5, 45 * i + 5, ShortHostname(hosts[i].hostname), 25) &&
      draws[2 * i + 1] == CellText(305, 45 * i + 5, hosts[i].address, 25)
  {
    HostRowsCellsBefore(hosts, |hosts|);
    forall i | 0 <= i < |hosts|
      ensures draws[2 * i] == CellText(5, 45 * i + 5, ShortHostname(hosts[i].hostname), 25)
      ensures draws[2 * i + 1] == CellText(305, 45 * i + 5, hosts[i].address, 25)
    {
      HostRowDrawn(hosts, draws, i);
    }
  }

  /**
   * The network image for `hosts`: a 600x448 canvas with two draws per
   * host, row i at y = 45i + 5, the short name at x = 5 and the address at
   * x = 305, in font size 25. No row is dropped, even past the bottom edge.
   */
  ghost predicate ShowsHosts(img: NetImage, hosts: seq<Host>)
  {
    img.width == 600 && img.height == 448 &&
    |img.draws| == 2 * |hosts| &&
    forall i :: 0 <= i < |hosts| ==>
      img.draws[2 * i] == CellText(5, 45 * i + 5, ShortHostname(hosts[i].hostname), 25) &&
      img.draws[2 * i + 1] == CellText(305, 45 * i + 5, hosts[i].address, 25)
  }

  /** Rows are not clipped: with eleven hosts or more, the eleventh row is drawn below the 448-pixel canvas. */
  lemma RowsPastCanvas(img: NetImage, hosts: seq<Host>)
    requires ShowsHosts(img, hosts) && |hosts| > 10
    ensures img.draws[20].y == 455 && img.draws[20].y > img.height
  {
    assert img.draws[2 * 10].y == 45 * 10 + 5;
  }

  /** get_network_image, with the scan result given. */
  method GetNetworkImage(hosts: seq<Host>) returns (img: NetImage)
    ensures ShowsHosts(img, hosts)
  {
    var data := HostRows(hosts);
    var draws := DrawTable(data, 0, 0, 45, 300, 25);
    HostTableDraws(hosts, draws);
    img := NetImage(600, 448, draws);
  }
}
