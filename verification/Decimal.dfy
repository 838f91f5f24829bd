/** Python's decimal text of an integer, and reading it back. */
module Decimal {
  import opened Common

  function Digit(d: nat): (c: char)
    requires d < 10
    ensures '0' <= c <= '9' && (c as int) - ('0' as int) == d
  {
    '0' + d as char
  }

  function ShowNat(n: nat): string {
    if n < 10 then [Digit(n)] else ShowNat(n / 10) + [Digit(n % 10)]
  }

  function Show(n: int): string {
    if n < 0 then "-" + ShowNat(-n) else ShowNat(n)
  }

  function ReadNat(s: string): Option<nat> {
    if s == [] then None
    else
      var c := s[|s| - 1];
      if !('0' <= c <= '9') then None
      else
        var d := (c as int) - ('0' as int);
        if |s| == 1 then Some(d)
        else
          var front := ReadNat(s[..|s| - 1]);
          if front.None? then None else Some(10 * front.value + d)
  }

  function Read(s: string): Option<int> {
    if s != [] && s[0] == '-' then
      var n: Option<int> := ReadNat(s[1..]);
      if n.None? then None else Some(-n.value)
    else ReadNat(s)
  }

  lemma {:induction false} ReadShowNat(n: nat)
    ensures ReadNat(ShowNat(n)) == Some(n)
    ensures ShowNat(n) != [] && ShowNat(n)[0] != '-'
  {
    if n >= 10 {
      ReadShowNat(n / 10);
      var s := ShowNat(n);
      assert s[..|s| - 1] == ShowNat(n / 10);
    }
  }

  /** Reading inverts showing, so different integers have different text. */
  lemma {:induction false} ReadShow(n: int)
    ensures Read(Show(n)) == Some(n)
    ensures Show(n) != []
  {
    if n < 0 {
      ReadShowNat(-n);
      assert Show(n)[1..] == ShowNat(-n);
    } else {
      ReadShowNat(n);
    }
  }
}
