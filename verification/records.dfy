/** The records of the export pool: the tagged `line_t` union of src/wavefront.c. */
module Records {

  /** A single-precision float, kept as its bit pattern: the pool compares records byte for
      byte, so two floats are the same record field exactly when their bits agree. */
  type Float = bv32

  datatype Vec3 = Vec3(x: Float, y: Float, z: Float)

  type Byte = bv8

  datatype Rgb = Rgb(r: Byte, g: Byte, b: Byte)

  /** The colour of a vertex record built without one (a zero-filled compound literal). */
  const Black: Rgb := Rgb(0, 0, 0)

  /** The four 1-based indices a face record holds (`vs[4]`, `vns[4]`). */
  type Index4 = s: seq<int> | |s| == 4 witness [0, 0, 0, 0]

  /** The two-character type field: "v " (V), "vn" (VN), "f " (F). */
  datatype Tag = V | VN | F

  /** One pool record. Equality of two `Line`s is the byte-wise comparison of the source. */
  datatype Line =
    | Vertex(pos: Vec3, color: Rgb)
    | Normal(dir: Vec3)
    | Face(vs: Index4, vns: Index4)

  function TagOf(l: Line): Tag
  {
    match l
    case Vertex(_, _) => V
    case Normal(_) => VN
    case Face(_, _) => F
  }

  /** line_cmp_score: the rank of a record's category in the emission order. */
  function Score(l: Line): (r: int)
    ensures 0 <= r <= 2
    ensures (r == 0 <==> l.Vertex?) && (r == 1 <==> l.Normal?) && (r == 2 <==> l.Face?)
  {
    match TagOf(l)
    case V => 0
    case VN => 1
    case F => 2
  }

  function Sign(x: int): int
  {
    if x < 0 then -1 else if x > 0 then 1 else 0
  }

  /** line_cmp: the comparison the pool is sorted with before it is written. */
  function Cmp(a: Line, b: Line): (r: int)
    ensures -1 <= r <= 1
    ensures r < 0 <==> Score(a) < Score(b)
    ensures r == 0 <==> TagOf(a) == TagOf(b)
  {
    Sign(Score(a) - Score(b))
  }

  /** Cmp orders records by category only (vertices, then normals, then faces): it is
      antisymmetric and transitive, and two records tie exactly when their tags agree. */
  lemma CmpIsCategoryOrder(a: Line, b: Line, c: Line)
    ensures Cmp(a, b) == -Cmp(b, a)
    ensures Cmp(a, b) == 0 <==> TagOf(a) == TagOf(b)
    ensures Cmp(a, b) <= 0 && Cmp(b, c) <= 0 ==> Cmp(a, c) <= 0
    ensures Cmp(a, b) < 0 <==> (TagOf(a) == V && TagOf(b) != V) || (TagOf(a) == VN && TagOf(b) == F)
  {
  }
}
