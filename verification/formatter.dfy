/**
 * The notification text built for one item of the details result
 * (format_item_message in snipe.py).
 */
module Formatter {
  import opened Wrappers
  import opened Decimal
  import opened Items

  // The glyphs of the template, kept opaque.
  const GreenMarker: string := "\U{1F7E2}"
  const RedMarker: string := "\U{1F534}"
  const IdGlyph: string := "\U{1F194}"
  const MoneyGlyph: string := "\U{1F4B0}"
  const CreatorGlyph: string := "\U{1F464}"
  const LimitedGlyph: string := "\U{1F4DB}"
  const LinkGlyph: string := "\U{1F517}"
  const ClockGlyph: string := "\U{23F0}"

  const LinkPrefix: string := LinkGlyph + " [Link](https://ecsr.io/catalog/"
  const LinkSuffix: string := "/123)"

  /** Python truthiness of an optional number: present and non-zero. */
  predicate Truthy(v: Option<nat>) {
    v.Some? && v.value != 0
  }

  /** Python's `a or b` on an optional number and a number. */
  function Or(a: Option<nat>, b: nat): nat {
    if Truthy(a) then a.value else b
  }

  /** `item.get("price") or item.get("priceTickets") or 0` */
  function ResolvePrice(item: ItemDetail): (p: nat)
    ensures Truthy(item.price) ==> p == item.price.value
    ensures !Truthy(item.price) && Truthy(item.priceTickets) ==> p == item.priceTickets.value
    ensures p == 0 <==> !Truthy(item.price) && !Truthy(item.priceTickets)
  {
    Or(item.price, Or(item.priceTickets, 0))
  }

  /** "Free" for a zero price, the number otherwise. */
  function DisplayPrice(item: ItemDetail): (s: string)
    ensures s == "Free" <==> ResolvePrice(item) == 0
    ensures s != "Free" ==> |s| > 0 && IsDigits(s) && s[0] != '0' && ParseNat(s) == ResolvePrice(item)
  {
    var p := ResolvePrice(item);
    if p == 0 then "Free"
    else
      ParseNatToString(p);
      NatToString(p)
  }

  /** The colour glyph that opens the message. */
  function Marker(item: ItemDetail): (m: string)
    ensures m == GreenMarker <==> ResolvePrice(item) == 0
    ensures m == RedMarker <==> ResolvePrice(item) != 0
  {
    if ResolvePrice(item) == 0 then GreenMarker else RedMarker
  }

  /** The "Limited" label, chosen by equality of the whole tag list. */
  function RestrictionLabel(tags: Option<Tags>): (shown: string)
    ensures shown == "Yes" <==> tags == Some(["Limited"])
    ensures shown == "Yes, Unique" <==> tags == Some(["LimitedUnique"])
    ensures shown == "No" <==> tags != Some(["Limited"]) && tags != Some(["LimitedUnique"])
  {
    var list := match tags case Some(l) => l case None => [];
    if list == ["Limited"] then "Yes"
    else if list == ["LimitedUnique"] then "Yes, Unique"
    else "No"
  }

  /** True when the item carries a non-empty offsale deadline. */
  predicate HasOffsale(item: ItemDetail) {
    item.offsaleDeadline.Some? && item.offsaleDeadline.value != ""
  }

  function OffsaleLine(deadline: string): string {
    ClockGlyph + " Offsale Deadline: " + deadline
  }

  /** The optional tail of the message: empty unless there is a deadline. */
  function OffsaleSuffix(item: ItemDetail): (s: string)
    ensures s == "" <==> !HasOffsale(item)
    ensures HasOffsale(item) ==> s == "\n" + OffsaleLine(item.offsaleDeadline.value)
  {
    if HasOffsale(item) then "\n" + OffsaleLine(item.offsaleDeadline.value) else ""
  }

  function LinkLine(id: Id): string {
    LinkPrefix + NatToString(id) + LinkSuffix
  }

  predicate EndsWith(s: string, suffix: string) {
    |suffix| <= |s| && s[|s| - |suffix|..] == suffix
  }

  function HeadLine(item: ItemDetail): string {
    Marker(item) + " *" + item.name + "*"
  }

  function IdLine(item: ItemDetail): string {
    IdGlyph + " ID: " + NatToString(item.id)
  }

  function PriceLine(item: ItemDetail): string {
    MoneyGlyph + " Price: " + DisplayPrice(item)
  }

  function CreatorLine(item: ItemDetail): string {
    CreatorGlyph + " Creator: " + item.creatorName
  }

  function LimitedLine(item: ItemDetail): string {
    LimitedGlyph + " Limited: " + RestrictionLabel(item.itemRestrictions)
  }

  /**
   * The whole notification, in the order of the source's template. It opens
   * with the colour glyph and closes with the link line, followed by the
   * deadline line only when there is a deadline.
   */
  function Format(item: ItemDetail): (msg: string)
    ensures Marker(item) <= msg
    ensures EndsWith(msg, LinkLine(item.id) + OffsaleSuffix(item))
    ensures !HasOffsale(item) ==> EndsWith(msg, LinkLine(item.id))
  {
    var head := HeadLine(item) + "\n"
      + IdLine(item) + "\n"
      + PriceLine(item) + "\n"
      + CreatorLine(item) + "\n"
      + LimitedLine(item) + "\n";
    var tail := LinkLine(item.id) + OffsaleSuffix(item);
    assert Marker(item) <= head by {
      assert head == Marker(item) + (head[|Marker(item)|..]);
    }
    assert tail == (head + tail)[|head|..];
    head + tail
  }

  /** The message as a list of lines, independent of how the template is spelled. */
  function Lines(item: ItemDetail): (lines: seq<string>)
    ensures |lines| == if HasOffsale(item) then 7 else 6
  {
    [HeadLine(item), IdLine(item), PriceLine(item), CreatorLine(item), LimitedLine(item), LinkLine(item.id)]
    + (if HasOffsale(item) then [OffsaleLine(item.offsaleDeadline.value)] else [])
  }

  /** Lines separated by newlines, with no trailing newline. */
  function JoinLines(lines: seq<string>): string
    decreases |lines|
  {
    if lines == [] then ""
    else if |lines| == 1 then lines[0]
    else lines[0] + "\n" + JoinLines(lines[1..])
  }

  /** Recovers the item id from a link line; None for any other text. */
  function ParseLink(line: string): (id: Option<Id>)
  {
    if |line| < |LinkPrefix| + |LinkSuffix| then None
    else if line[..|LinkPrefix|] != LinkPrefix then None
    else if line[|line| - |LinkSuffix|..] != LinkSuffix then None
    else
      var digits := line[|LinkPrefix|..|line| - |LinkSuffix|];
      if digits != [] && IsDigits(digits) then Some(ParseNat(digits)) else None
  }

  lemma LinkLineRoundTrip(id: Id)
    ensures ParseLink(LinkLine(id)) == Some(id)
  {
    var line := LinkLine(id);
    var digits := NatToString(id);
    assert line[..|LinkPrefix|] == LinkPrefix;
    assert line[|line| - |LinkSuffix|..] == LinkSuffix;
    assert line[|LinkPrefix|..|line| - |LinkSuffix|] == digits;
    ParseNatToString(id);
  }

  lemma JoinLinesAt(lines: seq<string>, i: nat)
    requires i + 1 < |lines|
    ensures JoinLines(lines[i..]) == lines[i] + "\n" + JoinLines(lines[i + 1..])
  {
    assert lines[i..][1..] == lines[i + 1..];
  }

  lemma NewlineAssoc(a: string, b: string, c: string, d: string, e: string, t: string)
    ensures a + "\n" + b + "\n" + c + "\n" + d + "\n" + e + "\n" + t
         == a + "\n" + (b + "\n" + (c + "\n" + (d + "\n" + (e + "\n" + t))))
  {
  }

  /** The template spells out exactly the lines of Lines, joined by newlines. */
  lemma FormatIsLines(item: ItemDetail)
    ensures Format(item) == JoinLines(Lines(item))
  {
    var ls := Lines(item);
    var tail := LinkLine(item.id) + OffsaleSuffix(item);
    assert JoinLines(ls) == ls[0] + "\n" + (ls[1] + "\n" + (ls[2] + "\n" + (ls[3] + "\n" + (ls[4] + "\n" + tail)))) by {
      LinesJoin(item);
    }
    assert Format(item) == ls[0] + "\n" + ls[1] + "\n" + ls[2] + "\n" + ls[3] + "\n" + ls[4] + "\n" + tail;
    NewlineAssoc(ls[0], ls[1], ls[2], ls[3], ls[4], tail);
  }

  lemma LinesJoin(item: ItemDetail)
    ensures var ls := Lines(item);
      JoinLines(ls) == ls[0] + "\n" + (ls[1] + "\n" + (ls[2] + "\n" + (ls[3] + "\n" + (ls[4] + "\n" + (LinkLine(item.id) + OffsaleSuffix(item))))))
  {
    var ls := Lines(item);
    assert JoinLines(ls[5..]) == LinkLine(item.id) + OffsaleSuffix(item) by {
      if HasOffsale(item) {
        JoinLinesAt(ls, 5);
        assert ls[6..] == [ls[6]];
      } else {
        assert ls[5..] == [ls[5]];
      }
    }
    JoinLinesAt(ls, 4);
    JoinLinesAt(ls, 3);
    JoinLinesAt(ls, 2);
    JoinLinesAt(ls, 1);
    JoinLinesAt(ls, 0);
    assert ls[0..] == ls;
  }

  /** A non-zero price is shown exactly as the decimal rendering of the number. */
  lemma DisplayPriceIsDecimal(item: ItemDetail)
    requires ResolvePrice(item) != 0
    ensures DisplayPrice(item) == NatToString(ResolvePrice(item))
  {
    CanonicalDigits(DisplayPrice(item));
  }

  /** The colour glyph and the price text always agree on whether the item is free. */
  lemma MarkerAgreesWithPrice(item: ItemDetail)
    ensures Marker(item) == GreenMarker <==> DisplayPrice(item) == "Free"
    ensures Marker(item) == RedMarker <==> DisplayPrice(item) != "Free"
  {
  }

  /** A tag list with more than one tag is never labelled limited, even if it holds "Limited". */
  lemma ExtraTagsAreNotLimited(tags: Tags)
    requires |tags| > 1
    ensures RestrictionLabel(Some(tags)) == "No"
  {
  }

  lemma PriceExamples()
    ensures var free := ItemDetail("Hat", 1, Some(0), None, "ECSR", None, None);
      DisplayPrice(free) == "Free" && Marker(free) == GreenMarker
    ensures var paid := ItemDetail("Hat", 1, Some(50), None, "ECSR", None, None);
      DisplayPrice(paid) == "50" && Marker(paid) == RedMarker
    ensures var tickets := ItemDetail("Hat", 1, Some(0), Some(50), "ECSR", None, None);
      ResolvePrice(tickets) == 50
  {
    assert NatToString(50) == "50";
  }

  lemma RestrictionExamples()
    ensures RestrictionLabel(Some(["Limited"])) == "Yes"
    ensures RestrictionLabel(Some(["LimitedUnique"])) == "Yes, Unique"
    ensures RestrictionLabel(Some([])) == "No"
    ensures RestrictionLabel(None) == "No"
    ensures RestrictionLabel(Some(["Limited", "Exclusive"])) == "No"
  {
  }
}
