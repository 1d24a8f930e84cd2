/** The nine cell kinds of the example plugin and their fixed metadata
    (type label, colour, text-mode symbol), plus the cell record `Node`. */
module Blocks {
  import opened Base

  datatype Block =
    | Start | Destination | Normal | Lucky | SpeedUp | SlowDown | Mine | Teleport | Empty

  /** The palette entries the cells use, by their constant names. */
  datatype Color = Red | Green | Blue | White | Yellow | Purple | Cyan | Orange | Gray

  /** Red, green and blue components of each palette entry. */
  function Rgb(c: Color): (int, int, int)
  {
    match c
    case Red => (231, 76, 60)
    case Green => (46, 204, 113)
    case Blue => (52, 152, 219)
    case White => (255, 255, 255)
    case Yellow => (241, 196, 15)
    case Purple => (155, 89, 182)
    case Cyan => (26, 188, 156)
    case Orange => (230, 126, 34)
    case Gray => (149, 165, 166)
  }

  /** `getType()` of each cell kind. */
  function TypeLabel(b: Block): string
  {
    match b
    case Start => "开始"
    case Destination => "终点"
    case Normal => "普通"
    case Lucky => "幸运"
    case SpeedUp => "加速"
    case SlowDown => "减速"
    case Mine => "地雷"
    case Teleport => "传送"
    case Empty => "Empty"
  }

  /** `getColor()` of each cell kind. */
  function ColorOf(b: Block): Color
  {
    match b
    case Start => Purple
    case Destination => Yellow
    case Normal => Gray
    case Lucky => Orange
    case SpeedUp => Blue
    case SlowDown => Green
    case Mine => Red
    case Teleport => Cyan
    case Empty => White
  }

  /** `getTUISymbol()` of each cell kind: two display columns each. */
  function TuiSymbol(b: Block): string
  {
    match b
    case Start => "起点"
    case Destination => "终点"
    case Normal => "□□"
    case Lucky => "幸运"
    case SpeedUp => "加速"
    case SlowDown => "减速"
    case Mine => "地雷"
    case Teleport => "传送"
    case Empty => "  "
  }

  /** Reads a type label back into the cell kind it names. */
  function BlockOfLabel(s: string): (r: Option<Block>)
  {
    if s == "开始" then Some(Start)
    else if s == "终点" then Some(Destination)
    else if s == "普通" then Some(Normal)
    else if s == "幸运" then Some(Lucky)
    else if s == "加速" then Some(SpeedUp)
    else if s == "减速" then Some(SlowDown)
    else if s == "地雷" then Some(Mine)
    else if s == "传送" then Some(Teleport)
    else if s == "Empty" then Some(Empty)
    else None
  }

  /** The type label identifies the cell kind: reading it back gives the
      kind, so no two kinds share a label. */
  lemma LabelRoundTrip(b: Block)
    ensures BlockOfLabel(TypeLabel(b)) == Some(b)
  {
  }

  /** Distinct cell kinds have distinct type labels. */
  lemma LabelsDistinct(a: Block, b: Block)
    ensures TypeLabel(a) == TypeLabel(b) <==> a == b
  {
    LabelRoundTrip(a);
    LabelRoundTrip(b);
  }

  /** Every symbol is two display columns wide: two characters. */
  lemma SymbolWidth(b: Block)
    ensures |TuiSymbol(b)| == 2
  {
  }

  /** The cells a piece never reaches are exactly the ones drawn blank. */
  lemma BlankSymbolOnlyForEmpty(b: Block)
    ensures TuiSymbol(b) == "  " <==> b == Empty
    ensures ColorOf(b) == White <==> b == Empty
  {
  }

  /** A grid cell: its path position (-1 off the path), its kind and a
      spare integer. */
  datatype Node = Node(position: int, block: Block, value: int)

  /** The two-argument constructor: the spare value starts at 0. */
  function NewNode(position: int, block: Block): (n: Node)
    ensures n.position == position && n.block == block && n.value == 0
  {
    Node(position, block, 0)
  }

  /** `setPosition` on a cell changes only its position. */
  function WithNodePosition(n: Node, position: int): (r: Node)
    ensures r.position == position && r.block == n.block && r.value == n.value
  {
    n.(position := position)
  }

  /** `setBlock` on a cell changes only its kind. */
  function WithNodeBlock(n: Node, block: Block): (r: Node)
    ensures r.block == block && r.position == n.position && r.value == n.value
  {
    n.(block := block)
  }

  /** `setValue` on a cell changes only its spare value. */
  function WithNodeValue(n: Node, value: int): (r: Node)
    ensures r.value == value && r.position == n.position && r.block == n.block
  {
    n.(value := value)
  }
}
