/** Order ids as text. The online handler writes `order._id.toString()` into the session
    metadata, and the webhook hands that text back to `findByIdAndUpdate` /
    `findByIdAndDelete`, which cast it to an id and throw when the cast fails.
    Ids are rendered here in canonical decimal (no leading zeros); the cast accepts exactly
    the rendered strings. */
module ObjectIds {
  import opened Domain

  predicate IsDigit(c: char) {
    '0' <= c <= '9'
  }

  predicate AllDigits(s: string) {
    forall i :: 0 <= i < |s| ==> IsDigit(s[i])
  }

  function DigitChar(d: nat): (c: char)
    requires d < 10
    ensures IsDigit(c) && (c as int) - ('0' as int) == d
  {
    (('0' as int) + d) as char
  }

  /** The value of a string of decimal digits, most significant first. */
  function DigitsValue(s: string): nat
    requires AllDigits(s)
  {
    if s == [] then 0
    else 10 * DigitsValue(s[..|s| - 1]) + ((s[|s| - 1] as int) - ('0' as int))
  }

  /** `id.toString()`. */
  function IdToString(id: OrderId): (s: string)
    ensures |s| > 0 && AllDigits(s)
    ensures s[0] == '0' <==> id == 0
  {
    if id < 10 then [DigitChar(id)]
    else IdToString(id / 10) + [DigitChar(id % 10)]
  }

  /** Casting text to an order id: `Some` when the text is a rendered id, `None` when the
      store call would throw a cast error. */
  function ParseId(s: string): Option<OrderId> {
    if |s| > 0 && AllDigits(s) && (s[0] != '0' || |s| == 1) then Some(DigitsValue(s))
    else None
  }

  lemma {:induction false} ValueOfRendered(id: OrderId)
    ensures DigitsValue(IdToString(id)) == id
  {
    if id >= 10 {
      var s := IdToString(id);
      assert s[..|s| - 1] == IdToString(id / 10);
      ValueOfRendered(id / 10);
    }
  }

  /** The text written into the session metadata casts back to the order it names. */
  lemma ParseRendered(id: OrderId)
    ensures ParseId(IdToString(id)) == Some(id)
  {
    ValueOfRendered(id);
  }

  lemma {:induction false} LeadingDigitPositive(s: string)
    requires |s| > 0 && AllDigits(s) && s[0] != '0'
    ensures DigitsValue(s) >= 1
  {
    if |s| > 1 {
      LeadingDigitPositive(s[..|s| - 1]);
    }
  }

  lemma {:induction false} RenderedValue(s: string)
    requires |s| > 0 && AllDigits(s) && (s[0] != '0' || |s| == 1)
    ensures IdToString(DigitsValue(s)) == s
  {
    var n := DigitsValue(s);
    var d := (s[|s| - 1] as int) - ('0' as int);
    if |s| == 1 {
      assert s[..|s| - 1] == [];
      assert DigitsValue(s[..|s| - 1]) == 0;
      assert n == d;
      assert IdToString(n) == [DigitChar(d)];
    } else {
      var p := s[..|s| - 1];
      LeadingDigitPositive(p);
      RenderedValue(p);
      assert n == 10 * DigitsValue(p) + d;
      assert n / 10 == DigitsValue(p) && n % 10 == d;
      assert s == p + [s[|s| - 1]];
    }
  }

  /** Only rendered ids cast: every string that casts is the rendering of its id. */
  lemma ParsedIsRendered(s: string, id: OrderId)
    requires ParseId(s) == Some(id)
    ensures IdToString(id) == s
  {
    RenderedValue(s);
  }
}
