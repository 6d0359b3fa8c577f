/** The command number that carries a request type and a data type in one integer. */
module CommandCodec {

  /** The command for request type `m` and data type `d`. */
  function GetCommandType(m: nat, d: nat): nat {
    ((m + d) * (m + d + 1)) / 2 + d
  }

  function Square(x: nat): nat {
    if x == 0 then 0 else Square(x - 1) + x + x - 1
  }

  lemma {:induction false} SquareIsProduct(x: nat)
    ensures Square(x) == x * x
  {
    if x > 0 {
      SquareIsProduct(x - 1);
    }
  }

  /** The integer part of the square root. */
  function SquareRoot(n: nat): nat {
    if n == 0 then 0
    else
      var r := SquareRoot(n - 1);
      if Square(r + 1) <= n then r + 1 else r
  }

  lemma {:induction false} SquareRootExact(n: nat)
    ensures Square(SquareRoot(n)) <= n < Square(SquareRoot(n) + 1)
  {
    if n > 0 {
      SquareRootExact(n - 1);
    }
  }

  /** It is the greatest number whose square is at most `n`. */
  lemma SquareRootIsRoot(n: nat)
    ensures var r := SquareRoot(n); r * r <= n < (r + 1) * (r + 1)
  {
    SquareRootExact(n);
    SquareIsProduct(SquareRoot(n));
    SquareIsProduct(SquareRoot(n) + 1);
  }

  /** The diagonal of a command, and the first command on a diagonal. */
  function DiagonalOf(cmd: nat): int {
    (SquareRoot(8 * cmd + 1) - 1) / 2
  }

  function FirstOn(w: int): int {
    (w * w + w) / 2
  }

  /** The request type and data type of a command. Both are checked to be nonnegative there. */
  function DepairDataHandleType(cmd: nat): (int, int) {
    var w := DiagonalOf(cmd);
    var y := cmd - FirstOn(w);
    (w - y, y)
  }

  // ---- diagonals ----

  /** The first command on diagonal `w`. */
  function Triangle(w: nat): nat {
    if w == 0 then 0 else Triangle(w - 1) + w
  }

  lemma {:induction false} TriangleFormula(w: nat)
    ensures w * w + w == 2 * Triangle(w)
    ensures (w * (w + 1)) / 2 == FirstOn(w) == Triangle(w)
  {
    if w > 0 {
      TriangleFormula(w - 1);
      assert w * w == (w - 1) * (w - 1) + 2 * w - 1;
    }
    assert w * (w + 1) == w * w + w;
  }

  lemma {:induction false} OddSquare(w: nat)
    ensures Square(2 * w + 1) == 8 * Triangle(w) + 1
  {
    if w > 0 {
      OddSquare(w - 1);
      assert Square(2 * w + 1) == Square(2 * w) + 4 * w + 1;
      assert Square(2 * w) == Square(2 * w - 1) + 4 * w - 1;
    }
  }

  lemma {:induction false} SquareMonotone(a: nat, b: nat)
    requires a <= b
    ensures Square(a) <= Square(b)
  {
    if a < b {
      SquareMonotone(a, b - 1);
    }
  }

  lemma RootBetween(n: nat, w: nat, r: nat)
    requires Square(r) <= n < Square(r + 1)
    requires Square(2 * w + 1) <= n < Square(2 * w + 3)
    ensures (r - 1) / 2 == w
  {
    if r < 2 * w + 1 {
      SquareMonotone(r + 1, 2 * w + 1);
    } else if r >= 2 * w + 3 {
      SquareMonotone(2 * w + 3, r);
    }
  }

  lemma OnDiagonalBounds(w: nat, d: nat)
    requires d <= w
    ensures Square(2 * w + 1) <= 8 * (Triangle(w) + d) + 1 < Square(2 * w + 3)
  {
    OddSquare(w);
    OddSquare(w + 1);
    assert 2 * (w + 1) + 1 == 2 * w + 3;
  }

  /** The diagonal of a command is found exactly. */
  lemma DiagonalFound(w: nat, d: nat)
    requires d <= w
    ensures DiagonalOf(Triangle(w) + d) == w
  {
    OnDiagonalBounds(w, d);
    var n := 8 * (Triangle(w) + d) + 1;
    SquareRootExact(n);
    RootBetween(n, w, SquareRoot(n));
  }

  /** Every command lies on one diagonal. */
  lemma {:induction false} OnDiagonal(cmd: nat) returns (w: nat)
    ensures Triangle(w) <= cmd <= Triangle(w) + w
  {
    if cmd == 0 {
      w := 0;
    } else {
      w := OnDiagonal(cmd - 1);
      if cmd > Triangle(w) + w {
        w := w + 1;
      }
    }
  }

  lemma DepairOn(w: nat, d: nat)
    requires d <= w
    ensures DepairDataHandleType(Triangle(w) + d) == (w - d, d)
  {
    DiagonalFound(w, d);
    TriangleFormula(w);
  }

  lemma PairOn(m: nat, d: nat)
    ensures GetCommandType(m, d) == Triangle(m + d) + d
  {
    TriangleFormula(m + d);
  }

  /** Taking a command apart gives back what it was made of. */
  lemma DepairInverts(m: nat, d: nat)
    ensures DepairDataHandleType(GetCommandType(m, d)) == (m, d)
  {
    calc {
      DepairDataHandleType(GetCommandType(m, d));
    == { PairOn(m, d); }
      DepairDataHandleType(Triangle(m + d) + d);
    == { DepairOn(m + d, d); }
      (m, d);
    }
  }

  /** Every number is a command: its parts pass the checks, and they make up the number again. */
  lemma PairInverts(cmd: nat)
    ensures var (m, d) := DepairDataHandleType(cmd); m >= 0 && d >= 0 && GetCommandType(m, d) == cmd
  {
    var w := OnDiagonal(cmd);
    var d := cmd - Triangle(w);
    DepairOn(w, d);
    PairOn(w - d, d);
  }
}
