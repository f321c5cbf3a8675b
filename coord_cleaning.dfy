/** `fix_coord` of the route-stop cleaning script: coordinates exported with thousands
    separators ("37.871.234") are put back into degrees ("37.871234"). */
module CoordCleaning {
  import opened Wrappers

  /** `str(val).replace('.', '')`: the characters of `s` other than '.', in their order. */
  function RemoveDots(s: string): (r: string)
    ensures '.' !in r
    ensures |r| <= |s|
    ensures forall c :: c != '.' ==> multiset(r)[c] == multiset(s)[c]
  {
    if s == [] then []
    else
      assert s == [s[0]] + s[1..];
      if s[0] == '.' then RemoveDots(s[1..]) else [s[0]] + RemoveDots(s[1..])
  }

  lemma {:induction false} RemoveDotsAppend(a: string, b: string)
    ensures RemoveDots(a + b) == RemoveDots(a) + RemoveDots(b)
  {
    if a == [] {
      assert a + b == b;
    } else {
      assert (a + b)[0] == a[0] && (a + b)[1..] == a[1..] + b;
      RemoveDotsAppend(a[1..], b);
      if a[0] != '.' {
        var x, y := RemoveDots(a[1..]), RemoveDots(b);
        assert [a[0]] + (x + y) == ([a[0]] + x) + y;
      }
    }
  }

  /** Text without dots is left as it is. */
  lemma {:induction false} RemoveDotsOfDotFree(s: string)
    requires '.' !in s
    ensures RemoveDots(s) == s
  {
    if s != [] {
      assert s[0] in s;
      RemoveDotsOfDotFree(s[1..]);
    }
  }

  /** The text `fix_coord` hands to `float`: the digits with one dot after the first two
      when more than two remain, the digits alone otherwise. */
  function FixedText(s: string): (r: string)
  {
    var digits := RemoveDots(s);
    if |digits| > 2 then digits[..2] + "." + digits[2..] else digits
  }

  /** A dot is inserted exactly when more than two characters are left, and only at
      position 2; every other character is the dot-free input in its order. */
  lemma FixedTextShape(s: string)
    ensures var digits := RemoveDots(s);
            var r := FixedText(s);
            (|digits| > 2 ==> |r| == |digits| + 1 && r[2] == '.' && r[..2] == digits[..2] && r[3..] == digits[2..]) &&
            (|digits| <= 2 ==> r == digits)
  {
  }

  /** At most one dot survives, at position 2. */
  lemma {:induction false} AtMostOneDot(s: string)
    ensures forall i :: 0 <= i < |FixedText(s)| && i != 2 ==> FixedText(s)[i] != '.'
  {
    var digits := RemoveDots(s);
    var r := FixedText(s);
    forall i | 0 <= i < |r| && i != 2
      ensures r[i] != '.'
    {
      var j := if |digits| > 2 && i > 2 then i - 1 else i;
      assert r[i] == digits[j];
      assert digits[j] in digits;
    }
  }

  /** Dropping the one dot between two dot-free parts joins them. */
  lemma DropInsertedDot(a: string, b: string)
    requires '.' !in a && '.' !in b
    ensures RemoveDots(a + ("." + b)) == a + b
  {
    RemoveDotsAppend(a, "." + b);
    RemoveDotsAppend(".", b);
    RemoveDotsOfDotFree(a);
    RemoveDotsOfDotFree(b);
  }

  /** Dropping the dots of the result gives back the dot-free input: no character is
      lost, added or moved. */
  lemma DotsRemovedAgain(s: string)
    ensures RemoveDots(FixedText(s)) == RemoveDots(s)
  {
    var digits := RemoveDots(s);
    if |digits| > 2 {
      var a, b := digits[..2], digits[2..];
      assert '.' !in a && '.' !in b by {
        assert forall c :: c in a ==> c in digits;
        assert forall c :: c in b ==> c in digits;
      }
      assert FixedText(s) == a + ("." + b);
      DropInsertedDot(a, b);
      assert a + b == digits;
    } else {
      RemoveDotsOfDotFree(digits);
    }
  }

  /** Cleaning already cleaned text changes nothing. */
  lemma FixedTextIdempotent(s: string)
    ensures FixedText(FixedText(s)) == FixedText(s)
  {
    DotsRemovedAgain(s);
  }

  /** A cell of the coordinate columns: missing (NaN) or the text `str(val)` gives. */
  datatype Cell = Missing | Text(text: string)

  /** What `fix_coord` produces: the missing value itself or a float; `float` raising
      `ValueError` on text that is not a number is `Failure`. */
  datatype Cleaned = Unchanged | Number(value: real)

  /** `fix_coord(val)`, with Python's `float` parsing as the parameter `parse`. */
  function FixCoord(cell: Cell, parse: string -> Option<real>): (r: Result<Cleaned, string>)
    ensures cell.Missing? <==> r == Success(Unchanged)
    ensures cell.Text? ==> (r.Success? <==> parse(FixedText(cell.text)).Some?)
    ensures cell.Text? && r.Success? ==> r.value == Number(parse(FixedText(cell.text)).value)
  {
    match cell
    case Missing => Success(Unchanged)
    case Text(s) =>
      var fixed := FixedText(s);
      match parse(fixed)
      case None => Failure(fixed)
      case Some(x) => Success(Number(x))
  }
}
