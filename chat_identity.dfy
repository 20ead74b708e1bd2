/**
 * Cell identity of the chat view: the reuse identifier under which a message's
 * cell is registered with, and dequeued from, the list view.
 *
 * The identifier is the runtime class name of the message content, a dot, and
 * the decimal rendering of the alignment's raw value. The show-card and
 * show-avatar flags are read by the source but never enter the identifier.
 */
module ChatIdentity {

  /** The display options of a message. `alignment` is the raw value of its alignment. */
  datatype MessageOptions = MessageOptions(alignment: int, showsAvatar: bool, showsCard: bool)

  /** A message as the cell identity sees it: its content's class name and its options. */
  datatype Message = Message(contentClass: string, options: MessageOptions)

  /** The character of one decimal digit. */
  function DigitChar(d: nat): (c: char)
    requires d < 10
    ensures '0' <= c <= '9'
    ensures c as int - '0' as int == d
  {
    ('0' as int + d) as char
  }

  /** Decimal rendering of a natural number, most significant digit first, no leading zeros. */
  function Decimal(n: nat): (s: string)
    ensures |s| >= 1
    ensures forall i :: 0 <= i < |s| ==> '0' <= s[i] <= '9'
    ensures |s| == 1 <==> n < 10
    decreases n
  {
    if n < 10 then [DigitChar(n)] else Decimal(n / 10) + [DigitChar(n % 10)]
  }

  /** How string interpolation renders an integer: a minus sign for negatives, then the digits. */
  function Description(n: int): (s: string)
    ensures |s| >= 1
    ensures forall i :: 0 <= i < |s| ==> s[i] != '.'
    ensures s[0] == '-' <==> n < 0
  {
    if n < 0 then "-" + Decimal(-n) else Decimal(n)
  }

  /** The reuse identifier of a message's cell: content class name, ".", alignment raw value. */
  function ReuseIdentifier(m: Message): (id: string)
    ensures |id| > |m.contentClass| + 1
    ensures id[..|m.contentClass|] == m.contentClass && id[|m.contentClass|] == '.'
    ensures forall i :: |m.contentClass| < i < |id| ==> id[i] != '.'
  {
    m.contentClass + "." + Description(m.options.alignment)
  }

  /** Distinct naturals have distinct decimal renderings. */
  lemma {:induction false} DecimalInjective(m: nat, n: nat)
    requires Decimal(m) == Decimal(n)
    ensures m == n
    decreases m
  {
    var s := Decimal(m);
    if m >= 10 && n >= 10 {
      assert s[..|s| - 1] == Decimal(m / 10) && s[..|s| - 1] == Decimal(n / 10);
      DecimalInjective(m / 10, n / 10);
      assert s[|s| - 1] == DigitChar(m % 10) == DigitChar(n % 10);
    } else if m < 10 && n < 10 {
      assert s[0] == DigitChar(m) == DigitChar(n);
    }
  }

  /** Distinct integers have distinct descriptions. */
  lemma DescriptionInjective(a: int, b: int)
    requires Description(a) == Description(b)
    ensures a == b
  {
    var s := Description(a);
    if a < 0 {
      assert s[1..] == Decimal(-a) && s[1..] == Decimal(-b);
      DecimalInjective(-a, -b);
    } else {
      DecimalInjective(a, b);
    }
  }

  /**
   * Two messages share a reuse identifier exactly when they have the same content
   * class and the same alignment, whatever their show-card and show-avatar flags.
   * The class name may itself contain dots (module-qualified names do); the
   * alignment's rendering never does, so the last dot splits the identifier.
   */
  lemma ReuseIdentifierKey(m1: Message, m2: Message)
    ensures ReuseIdentifier(m1) == ReuseIdentifier(m2) <==>
            m1.contentClass == m2.contentClass && m1.options.alignment == m2.options.alignment
  {
    var id1, id2 := ReuseIdentifier(m1), ReuseIdentifier(m2);
    var c1, c2 := m1.contentClass, m2.contentClass;
    if id1 == id2 {
      assert |c1| == |c2|;
      assert c1 == id1[..|c1|] == c2;
      assert id1[|c1| + 1..] == Description(m1.options.alignment);
      assert id2[|c2| + 1..] == Description(m2.options.alignment);
      DescriptionInjective(m1.options.alignment, m2.options.alignment);
    }
  }
}
