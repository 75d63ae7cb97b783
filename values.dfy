/**
 * Values shared by every part of the model: JavaScript values as they arrive in
 * request bodies and component state, SQLite cells as they sit in the tables,
 * SQLite's comparison and LIKE semantics, and the HTTP reply shape.
 */
module Values {

  datatype Option<T> = None | Some(value: T)

  /** An HTTP reply: the status code and the JSON body sent with it. */
  datatype Reply<B> = Reply(status: nat, body: B)

  // ---------------------------------------------------------------------------
  // JavaScript values
  // ---------------------------------------------------------------------------

  /**
   * A value read from a JSON request body or from component state.
   * `Undefined` is a key that is absent; numbers are integers (money is
   * modelled as whole units).
   */
  datatype Json = Undefined | Null | Num(n: int) | Str(s: string)

  /** JavaScript truthiness: `undefined`, `null`, `0` and `""` are falsy. */
  predicate Truthy(v: Json) {
    match v
    case Undefined => false
    case Null => false
    case Num(n) => n != 0
    case Str(s) => s != ""
  }

  /** JavaScript `v || null`: a falsy value becomes `null`. */
  function OrNull(v: Json): Json {
    if Truthy(v) then v else Null
  }

  /** A destructuring default `{ x = d } = body`: it applies only when `x` is undefined. */
  function WithDefault(v: Json, d: Json): Json {
    if v == Undefined then d else v
  }

  predicate IsDigit(c: char) {
    '0' <= c <= '9'
  }

  predicate AllDigits(s: string) {
    forall i :: 0 <= i < |s| ==> IsDigit(s[i])
  }

  /** The value of a string of decimal digits. */
  function DigitsValue(s: string): nat
    requires AllDigits(s)
  {
    if s == [] then 0 else DigitsValue(s[..|s| - 1]) * 10 + (s[|s| - 1] as int - '0' as int)
  }

  /**
   * JavaScript `Number(v)`, with `None` for NaN. `Number(undefined)` is NaN,
   * `Number(null)` and `Number("")` are 0, a string of decimal digits denotes
   * its value, and every other string is NaN.
   */
  function NumberOf(v: Json): (r: Option<int>)
    ensures v == Undefined ==> r == None
    ensures v == Null ==> r == Some(0)
    ensures v.Num? ==> r == Some(v.n)
    ensures v.Str? && v.s != "" && !AllDigits(v.s) ==> r == None
  {
    match v
    case Undefined => None
    case Null => Some(0)
    case Num(n) => Some(n)
    case Str(s) =>
      if s == "" then Some(0)
      else if AllDigits(s) then Some(DigitsValue(s))
      else None
  }

  // ---------------------------------------------------------------------------
  // SQLite cells
  // ---------------------------------------------------------------------------

  /** A value stored in an SQLite column: NULL, an integer or a text. */
  datatype Cell = SqlNull | SqlInt(i: int) | SqlText(t: string)

  /** How the sqlite3 driver binds a JavaScript value to a `?` placeholder. */
  function Bind(v: Json): Cell {
    match v
    case Undefined => SqlNull
    case Null => SqlNull
    case Num(n) => SqlInt(n)
    case Str(s) => SqlText(s)
  }

  /**
   * Byte-wise lexicographic order on strings: SQLite's BINARY collation, which
   * on UTF-8 text is the order of code points.
   */
  predicate LexLe(a: string, b: string) {
    if a == [] then true
    else if b == [] then false
    else if a[0] != b[0] then a[0] < b[0]
    else LexLe(a[1..], b[1..])
  }

  lemma {:induction false} LexLeTotal(a: string, b: string)
    ensures LexLe(a, b) || LexLe(b, a)
  {
    if a != [] && b != [] && a[0] == b[0] {
      LexLeTotal(a[1..], b[1..]);
    }
  }

  lemma {:induction false} LexLeTransitive(a: string, b: string, c: string)
    requires LexLe(a, b) && LexLe(b, c)
    ensures LexLe(a, c)
  {
    if a != [] && b != [] && c != [] && a[0] == b[0] && b[0] == c[0] {
      LexLeTransitive(a[1..], b[1..], c[1..]);
    }
  }

  lemma {:induction false} LexLeAntisymmetric(a: string, b: string)
    requires LexLe(a, b) && LexLe(b, a)
    ensures a == b
  {
    if a != [] && b != [] {
      LexLeAntisymmetric(a[1..], b[1..]);
      assert a == [a[0]] + a[1..] && b == [b[0]] + b[1..];
    }
  }

  /**
   * SQLite's order of cells in ORDER BY: NULL first, then integers by value,
   * then texts by BINARY collation.
   */
  predicate CellLe(a: Cell, b: Cell) {
    match (a, b)
    case (SqlNull, _) => true
    case (_, SqlNull) => false
    case (SqlInt(x), SqlInt(y)) => x <= y
    case (SqlInt(_), SqlText(_)) => true
    case (SqlText(_), SqlInt(_)) => false
    case (SqlText(x), SqlText(y)) => LexLe(x, y)
  }

  lemma CellLeTotal(a: Cell, b: Cell)
    ensures CellLe(a, b) || CellLe(b, a)
  {
    if a.SqlText? && b.SqlText? {
      LexLeTotal(a.t, b.t);
    }
  }

  lemma CellLeTransitive(a: Cell, b: Cell, c: Cell)
    requires CellLe(a, b) && CellLe(b, c)
    ensures CellLe(a, c)
  {
    if a.SqlText? && b.SqlText? && c.SqlText? {
      LexLeTransitive(a.t, b.t, c.t);
    }
  }

  lemma CellLeAntisymmetric(a: Cell, b: Cell)
    requires CellLe(a, b) && CellLe(b, a)
    ensures a == b
  {
    if a.SqlText? && b.SqlText? {
      LexLeAntisymmetric(a.t, b.t);
    }
  }

  /**
   * `a >= b` in a WHERE clause. A comparison with NULL is unknown, which a
   * WHERE clause treats as false; otherwise values compare in ORDER BY order.
   */
  predicate SqlGe(a: Cell, b: Cell) {
    a != SqlNull && b != SqlNull && CellLe(b, a)
  }

  /** `a <= b` in a WHERE clause. */
  predicate SqlLe(a: Cell, b: Cell) {
    a != SqlNull && b != SqlNull && CellLe(a, b)
  }

  /** `a = b` in a WHERE clause: false when either side is NULL. */
  predicate SqlEq(a: Cell, b: Cell) {
    a != SqlNull && b != SqlNull && a == b
  }

  /**
   * The characters SQLite skips around a numeral when it converts a text:
   * space, tab, line feed, vertical tab, form feed and carriage return.
   */
  predicate IsSqlSpace(c: char) {
    c == ' ' || c == '\t' || c == '\n' || c == '\U{000B}' || c == '\U{000C}' || c == '\r'
  }

  /** `s` without its leading SQLite spaces. */
  function TrimStart(s: string): string {
    if s != [] && IsSqlSpace(s[0]) then TrimStart(s[1..]) else s
  }

  /** `s` without its trailing SQLite spaces. */
  function TrimEnd(s: string): string {
    if s != [] && IsSqlSpace(s[|s| - 1]) then TrimEnd(s[..|s| - 1]) else s
  }

  /** Trimming the front leaves a suffix that does not start with a space. */
  lemma {:induction false} TrimStartSuffix(s: string)
    ensures |TrimStart(s)| <= |s| && TrimStart(s) == s[|s| - |TrimStart(s)|..]
    ensures TrimStart(s) == [] || !IsSqlSpace(TrimStart(s)[0])
  {
    if s != [] && IsSqlSpace(s[0]) {
      TrimStartSuffix(s[1..]);
    }
  }

  /** Trimming the end leaves a prefix that does not end with a space. */
  lemma {:induction false} TrimEndPrefix(s: string)
    ensures |TrimEnd(s)| <= |s| && TrimEnd(s) == s[..|TrimEnd(s)|]
    ensures TrimEnd(s) == [] || !IsSqlSpace(TrimEnd(s)[|TrimEnd(s)| - 1])
  {
    if s != [] && IsSqlSpace(s[|s| - 1]) {
      TrimEndPrefix(s[..|s| - 1]);
    }
  }

  /** A non-empty run of decimal digits after an optional `+` or `-`. */
  function SignedDigits(u: string): Option<int> {
    if |u| >= 2 && u[0] == '-' && AllDigits(u[1..]) then Some(0 - DigitsValue(u[1..]) as int)
    else if |u| >= 2 && u[0] == '+' && AllDigits(u[1..]) then Some(DigitsValue(u[1..]))
    else if u != [] && AllDigits(u) then Some(DigitsValue(u))
    else None
  }

  /**
   * The integer SQLite reads from a text when it applies numeric affinity:
   * an optional sign and a run of decimal digits, with spaces allowed on
   * either side. `None` when the text is not such a numeral.
   */
  function SqlNumeral(t: string): Option<int> {
    SignedDigits(TrimEnd(TrimStart(t)))
  }

  /** A plain run of digits reads as its value. */
  lemma SqlNumeralOfDigits(t: string)
    requires t != "" && AllDigits(t)
    ensures SqlNumeral(t) == Some(DigitsValue(t))
  {
    assert IsDigit(t[0]) && IsDigit(t[|t| - 1]);
    assert TrimStart(t) == t;
    assert TrimEnd(t) == t;
  }

  /** A sign before a run of digits is read with it. */
  lemma SqlNumeralOfSigned(t: string)
    requires |t| >= 2 && (t[0] == '-' || t[0] == '+') && AllDigits(t[1..])
    ensures SqlNumeral(t) == Some(if t[0] == '-' then 0 - DigitsValue(t[1..]) as int else DigitsValue(t[1..]))
  {
    assert !IsSqlSpace(t[0]);
    assert TrimStart(t) == t;
    assert t[|t| - 1] == t[1..][|t| - 2];
    assert IsDigit(t[|t| - 1]);
    assert TrimEnd(t) == t;
    assert SqlNumeral(t) == SignedDigits(t);
  }

  /** A text that is read as a numeral holds a digit. */
  lemma SqlNumeralNeedsDigit(t: string)
    requires SqlNumeral(t).Some?
    ensures exists i :: 0 <= i < |t| && IsDigit(t[i])
  {
    var s := TrimStart(t);
    var u := TrimEnd(s);
    TrimStartSuffix(t);
    TrimEndPrefix(s);
    var j := |u| - 1;
    assert IsDigit(u[j]) by {
      if u[0] == '-' || u[0] == '+' {
        assert u[1..][j - 1] == u[j];
      }
    }
    assert u[j] == s[j];
    assert s[j] == t[|t| - |s| + j];
  }

  /** `s + " "` trims like `s`. */
  lemma {:induction false} TrimTrailingSpace(s: string)
    ensures TrimEnd(TrimStart(s + " ")) == TrimEnd(TrimStart(s))
  {
    var t := s + " ";
    if s == [] {
      assert t == " " && t[1..] == [];
      assert TrimStart(t) == [];
    } else if IsSqlSpace(s[0]) {
      assert t[0] == s[0] && t[1..] == s[1..] + " ";
      assert TrimStart(t) == TrimStart(s[1..] + " ");
      assert TrimStart(s) == TrimStart(s[1..]);
      TrimTrailingSpace(s[1..]);
    } else {
      assert t[0] == s[0];
      assert TrimStart(t) == t && TrimStart(s) == s;
      assert t[|t| - 1] == ' ' && t[..|t| - 1] == s;
      assert TrimEnd(t) == TrimEnd(s);
    }
  }

  /** Spaces around a numeral do not change the integer SQLite reads from it. */
  lemma SqlNumeralIgnoresPadding(t: string)
    ensures SqlNumeral(" " + t) == SqlNumeral(t)
    ensures SqlNumeral(t + " ") == SqlNumeral(t)
  {
    assert (" " + t)[1..] == t;
    TrimTrailingSpace(t);
  }

  /**
   * The conversion SQLite applies to a bound text before comparing it with a
   * column of numeric affinity: a signed decimal numeral, spaces around it
   * allowed, becomes that integer; any other text stays text.
   */
  function NumericAffinity(c: Cell): (r: Cell)
    ensures c.SqlText? && SqlNumeral(c.t).Some? ==> r == SqlInt(SqlNumeral(c.t).value)
    ensures !(c.SqlText? && SqlNumeral(c.t).Some?) ==> r == c
  {
    if c.SqlText? && SqlNumeral(c.t).Some? then SqlInt(SqlNumeral(c.t).value) else c
  }

  /** A text holding no digit stays text. */
  lemma NonNumeralStaysText(t: string)
    requires forall i :: 0 <= i < |t| ==> !IsDigit(t[i])
    ensures NumericAffinity(SqlText(t)) == SqlText(t)
  {
    if SqlNumeral(t).Some? {
      SqlNumeralNeedsDigit(t);
    }
  }



  /** `column LIKE pattern`: NULL never matches. */
  predicate SqlLike(column: Cell, pattern: Cell) {
    column.SqlText? && pattern.SqlText? && LikeMatch(column.t, pattern.t)
  }

  /** `a >= x AND a <= x` holds exactly when `a` is the integer `x`. */
  lemma SqlBetweenPoint(a: Cell, x: int)
    ensures SqlGe(a, SqlInt(x)) && SqlLe(a, SqlInt(x)) <==> a == SqlInt(x)
  {
    if SqlGe(a, SqlInt(x)) && SqlLe(a, SqlInt(x)) {
      CellLeAntisymmetric(a, SqlInt(x));
    }
  }

  // ---------------------------------------------------------------------------
  // Placeholders
  // ---------------------------------------------------------------------------

  /** The number of times `c` occurs in `s`. */
  function Occurrences(c: char, s: string): nat {
    if s == [] then 0 else (if s[0] == c then 1 else 0) + Occurrences(c, s[1..])
  }

  lemma {:induction false} OccurrencesAbsent(c: char, s: string)
    requires c !in s
    ensures Occurrences(c, s) == 0
  {
    if s != [] {
      assert s[0] in s;
      assert forall x :: x in s[1..] ==> x in s;
      OccurrencesAbsent(c, s[1..]);
    }
  }

  lemma {:induction false} OccurrencesAppend(c: char, a: string, b: string)
    ensures Occurrences(c, a + b) == Occurrences(c, a) + Occurrences(c, b)
  {
    if a != [] {
      assert (a + b)[1..] == a[1..] + b;
      OccurrencesAppend(c, a[1..], b);
    } else {
      assert a + b == b;
    }
  }

  // ---------------------------------------------------------------------------
  // Substrings and LIKE
  // ---------------------------------------------------------------------------

  predicate IsPrefix(p: string, s: string) {
    |p| <= |s| && s[..|p|] == p
  }

  /** `sub` occurs in `s`: JavaScript `s.includes(sub)`. */
  predicate Contains(s: string, sub: string)
    decreases |s|
  {
    IsPrefix(sub, s) || (s != [] && Contains(s[1..], sub))
  }

  /** `sub` occurs in `s` starting at index `i`. */
  predicate OccursAt(s: string, sub: string, i: int) {
    0 <= i <= |s| - |sub| && s[i..i + |sub|] == sub
  }

  /** `Contains` agrees with "some slice of `s` equals `sub`". */
  lemma {:induction false} ContainsAt(s: string, sub: string)
    ensures Contains(s, sub) <==> exists i :: OccursAt(s, sub, i)
    decreases |s|
  {
    if IsPrefix(sub, s) {
      assert OccursAt(s, sub, 0);
    }
    if s != [] {
      ContainsAt(s[1..], sub);
      if Contains(s[1..], sub) {
        var j :| OccursAt(s[1..], sub, j);
        assert s[1..][j..j + |sub|] == s[j + 1..j + 1 + |sub|];
        assert OccursAt(s, sub, j + 1);
      }
      if i :| OccursAt(s, sub, i) && i > 0 {
        assert s[1..][i - 1..i - 1 + |sub|] == s[i..i + |sub|];
        assert OccursAt(s[1..], sub, i - 1);
      }
    }
  }

  /** A substring of a substring of `a` is a substring of `a`. */
  lemma ContainsTransitive(a: string, b: string, c: string)
    requires Contains(a, b) && Contains(b, c)
    ensures Contains(a, c)
  {
    ContainsAt(a, b);
    ContainsAt(b, c);
    var i :| OccursAt(a, b, i);
    var j :| OccursAt(b, c, j);
    forall k | 0 <= k < |c| ensures a[i + j + k] == c[k] {
      assert c[k] == b[j + k] && b[j + k] == a[i..i + |b|][j + k];
    }
    assert a[i + j..i + j + |c|] == c;
    assert OccursAt(a, c, i + j);
    ContainsAt(a, c);
  }

  /**
   * SQL `LIKE`: `%` matches any run of characters and `_` any one character.
   * SQLite's ASCII case folding is not part of this definition.
   */
  predicate LikeMatch(s: string, p: string)
    decreases |p|, |s|
  {
    if p == [] then s == []
    else if p[0] == '%' then LikeMatch(s, p[1..]) || (s != [] && LikeMatch(s[1..], p))
    else s != [] && (p[0] == '_' || p[0] == s[0]) && LikeMatch(s[1..], p[1..])
  }

  predicate NoWildcards(x: string) {
    forall i :: 0 <= i < |x| ==> x[i] != '%' && x[i] != '_'
  }

  lemma {:induction false} LikeAnything(s: string)
    ensures LikeMatch(s, "%")
    decreases |s|
  {
    assert "%"[1..] == [];
    if s != [] {
      LikeAnything(s[1..]);
    }
  }

  /** On a text free of wildcards, `x%` is a prefix test. */
  lemma {:induction false} LikePrefix(s: string, x: string)
    requires NoWildcards(x)
    ensures LikeMatch(s, x + "%") <==> IsPrefix(x, s)
    decreases |x|
  {
    if x == [] {
      assert x + "%" == "%";
      LikeAnything(s);
    } else {
      var p := x + "%";
      assert p[0] == x[0] && p[1..] == x[1..] + "%";
      assert NoWildcards(x[1..]) by {
        forall i | 0 <= i < |x[1..]| ensures x[1..][i] != '%' && x[1..][i] != '_' {
          assert x[1..][i] == x[i + 1];
        }
      }
      if s != [] {
        LikePrefix(s[1..], x[1..]);
        assert IsPrefix(x, s) <==> s[0] == x[0] && IsPrefix(x[1..], s[1..]) by {
          if IsPrefix(x, s) {
            assert s[1..][..|x[1..]|] == s[..|x|][1..];
          }
          if s[0] == x[0] && IsPrefix(x[1..], s[1..]) {
            assert s[..|x|] == [s[0]] + s[1..][..|x[1..]|];
            assert x == [x[0]] + x[1..];
          }
        }
      }
    }
  }

  /**
   * The pattern `%x%` that the order listing binds for a text filter is a
   * substring test when `x` holds no wildcard.
   */
  lemma {:induction false} LikeContains(s: string, x: string)
    requires NoWildcards(x)
    ensures LikeMatch(s, "%" + x + "%") <==> Contains(s, x)
    decreases |s|
  {
    var p := "%" + x + "%";
    assert p[0] == '%' && p[1..] == x + "%";
    LikePrefix(s, x);
    if s != [] {
      LikeContains(s[1..], x);
    }
  }
}
