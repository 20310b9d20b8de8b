/**
 * Reading the sections of the language model's reply
 * (backend/app/services/ai_service.py, `parse_ai_response`): finding the text
 * under a `## NAME` header, turning a section into bullet items, and cutting the
 * saving plan at its "Months 1-3" and "Months 4-6" markers.
 *
 * The header search is modelled line by line: the reply is split at newlines, a
 * header is a line holding `##`, optional whitespace and the section name (any
 * case), and the section is the text from the first non-blank line after the
 * header up to the next line that begins a new `##` header or a `Disclaimer:`.
 */
module AiSections {
  import opened Wrappers
  import opened Text

  /** How a header line is compared with the section name. */
  datatype HeaderRule =
    | Exact   // the name is all that follows `##` on the line, as `find_section` is written
    | Prefix  // the name begins what follows `##`, so a header may carry a suffix

  /** The reply split into lines. */
  function Lines(text: string): (lines: seq<string>)
    ensures |lines| >= 1
    ensures forall k :: 0 <= k < |lines| ==> '\n' !in lines[k]
  {
    Split(text, '\n')
  }

  /** The `##` at `q` on `line` is a header for `name` under `rule`. */
  predicate HeaderAt(line: string, name: string, rule: HeaderRule, q: int) {
    0 <= q && q + 2 <= |line| && line[q..q + 2] == "##" &&
    var rest := Lower(Trim(line[q + 2..]));
    match rule
    case Exact => rest == Lower(name)
    case Prefix => StartsWith(rest, Lower(name))
  }

  /** Some `##` at or after `p` on the line is a header for `name`. */
  function HeaderFrom(line: string, name: string, rule: HeaderRule, p: nat): (r: bool)
    ensures r <==> exists q :: p <= q && HeaderAt(line, name, rule, q)
    decreases |line| - p
  {
    if p + 2 > |line| then false
    else HeaderAt(line, name, rule, p) || HeaderFrom(line, name, rule, p + 1)
  }

  predicate IsHeader(line: string, name: string, rule: HeaderRule) {
    HeaderFrom(line, name, rule, 0)
  }

  /**
   * A line that stops a section: it begins with `##` followed by whitespace (a
   * line break counts, so a bare `##` stops unless it is the last line), or it
   * begins with `Disclaimer:` in any case.
   */
  predicate StopsSection(l: string, hasNext: bool) {
    (StartsWith(l, "##") && ((|l| > 2 && IsSpace(l[2])) || (|l| == 2 && hasNext))) ||
    StartsWith(Lower(l), "disclaimer:")
  }

  predicate EndsSection(lines: seq<string>, t: int)
    requires 0 <= t < |lines|
  {
    StopsSection(lines[t], t + 1 < |lines|)
  }

  /** The first header line for `name` at or after `i` that is not the last line. */
  function FirstHeader(lines: seq<string>, name: string, rule: HeaderRule, i: nat): (r: Option<nat>)
    ensures r.Some? ==> i <= r.value && r.value + 1 < |lines| && IsHeader(lines[r.value], name, rule)
    ensures r.Some? ==> forall k :: i <= k < r.value ==> !IsHeader(lines[k], name, rule)
    ensures r.None? ==> forall k :: i <= k && k + 1 < |lines| ==> !IsHeader(lines[k], name, rule)
    decreases |lines| - i
  {
    if i + 1 >= |lines| then None
    else
      var here := IsHeader(lines[i], name, rule);
      if here then Some(i)
      else
        var r := FirstHeader(lines, name, rule, i + 1);
        assert !IsHeader(lines[i], name, rule);
        r
  }

  /** The line holds nothing but whitespace. */
  predicate Blank(line: string) {
    SkipSpaces(line, 0) == |line|
  }

  /** The first non-blank line at or after `i`, or `|lines|`. */
  function FirstFilled(lines: seq<string>, i: nat): (b: nat)
    requires i <= |lines|
    ensures i <= b <= |lines|
    ensures forall k :: i <= k < b ==> Blank(lines[k])
    ensures b < |lines| ==> !Blank(lines[b])
    decreases |lines| - i
  {
    if i < |lines| && Blank(lines[i]) then FirstFilled(lines, i + 1) else i
  }

  /** The first line after `b` that stops the section, or `|lines|`. */
  function SectionEnd(lines: seq<string>, b: nat): (t: nat)
    requires b < |lines|
    ensures b < t <= |lines|
    ensures forall k :: b < k < t ==> !EndsSection(lines, k)
    ensures t < |lines| ==> EndsSection(lines, t)
  {
    SectionEndFrom(lines, b + 1)
  }

  function SectionEndFrom(lines: seq<string>, i: nat): (t: nat)
    requires i <= |lines|
    ensures i <= t <= |lines|
    ensures forall k :: i <= k < t ==> !EndsSection(lines, k)
    ensures t < |lines| ==> EndsSection(lines, t)
    decreases |lines| - i
  {
    if i == |lines| || EndsSection(lines, i) then i else SectionEndFrom(lines, i + 1)
  }

  /**
   * The section under the first header for `name`, stripped, or "" when there is
   * no such header. The first non-blank line after the header always belongs to the
   * section, even when it looks like a header itself (an empty section swallows
   * the next header line).
   */
  function SectionOf(lines: seq<string>, name: string, rule: HeaderRule): (r: string)
    ensures r == [] || (!IsSpace(r[0]) && !IsSpace(r[|r| - 1]))
    ensures FirstHeader(lines, name, rule, 0).None? ==> r == []
  {
    match FirstHeader(lines, name, rule, 0)
    case None => ""
    case Some(h) =>
      var b := FirstFilled(lines, h + 1);
      if b == |lines| then "" else Trim(Join(lines[b..SectionEnd(lines, b)], "\n"))
  }

  /** `find_section(name)` on the whole reply. */
  function FindSection(text: string, name: string, rule: HeaderRule): (r: string)
    ensures r == [] || (!IsSpace(r[0]) && !IsSpace(r[|r| - 1]))
  {
    SectionOf(Lines(text), name, rule)
  }

  /**
   * The text between a header and the next header: when line `h` is the first
   * header for `name`, the line after it is filled, and line `e` is the first line
   * after that to stop a section, the section is exactly the lines strictly
   * between the two, stripped.
   */
  lemma SectionBetween(lines: seq<string>, name: string, rule: HeaderRule, h: nat, e: nat)
    requires h + 1 < e <= |lines|
    requires forall k :: 0 <= k < h ==> !IsHeader(lines[k], name, rule)
    requires IsHeader(lines[h], name, rule) && !Blank(lines[h + 1])
    requires forall k :: h + 1 < k < e ==> !EndsSection(lines, k)
    requires e < |lines| ==> EndsSection(lines, e)
    ensures SectionOf(lines, name, rule) == Trim(Join(lines[h + 1..e], "\n"))
  {
    FirstHeaderIs(lines, name, rule, h);
    SectionEndIs(lines, h + 1, e);
  }

  lemma FirstHeaderIs(lines: seq<string>, name: string, rule: HeaderRule, h: nat)
    requires h + 1 < |lines| && IsHeader(lines[h], name, rule)
    requires forall k :: 0 <= k < h ==> !IsHeader(lines[k], name, rule)
    ensures FirstHeader(lines, name, rule, 0) == Some(h)
  {
  }

  lemma SectionEndIs(lines: seq<string>, b: nat, e: nat)
    requires b < e <= |lines| && (e < |lines| ==> EndsSection(lines, e))
    requires forall k :: b < k < e ==> !EndsSection(lines, k)
    ensures SectionEnd(lines, b) == e
  {
  }

  /** Every header the source's matcher accepts is accepted by the corrected one. */
  lemma ExactHeaderIsPrefixHeader(line: string, name: string)
    ensures IsHeader(line, name, Exact) ==> IsHeader(line, name, Prefix)
  {
    if IsHeader(line, name, Exact) {
      var q :| 0 <= q && HeaderAt(line, name, Exact, q);
      assert HeaderAt(line, name, Prefix, q);
    }
  }

  /** The name `parse_ai_response` looks the saving plan up by. */
  const PlanName: string := "SAVING PLAN"

  /** The saving-plan header the prompt asks the model to write (ai_service.py line 114). */
  const PlanHeader: string := "##" + " " + PlanName + " (3-6 MONTHS)"

  lemma PlanHeaderRest()
    ensures forall q :: 2 <= q < |PlanHeader| ==> PlanHeader[q] != '#'
    ensures Trim(PlanHeader[2..]) == PlanName + " (3-6 MONTHS)"
  {
    var s := PlanHeader[2..];
    assert s == " " + PlanName + " (3-6 MONTHS)";
    assert '#' !in s;
    assert forall q :: 2 <= q < |PlanHeader| ==> PlanHeader[q] == s[q - 2];
    assert SkipSpaces(s, 1) == 1;
    assert SkipSpaces(s, 0) == 1;
    assert SkipSpacesBack(s, 1, |s|) == |s|;
    assert s[1..] == PlanName + " (3-6 MONTHS)";
  }

  /** As written: the header the prompt prescribes is not a header for "SAVING PLAN". */
  lemma PlanHeaderMissed()
    ensures !IsHeader(PlanHeader, PlanName, Exact)
  {
    PlanHeaderRest();
    LowerAppend(PlanName, " (3-6 MONTHS)");
    forall q | 0 <= q
      ensures !HeaderAt(PlanHeader, PlanName, Exact, q)
    {
      if q != 0 && q + 2 <= |PlanHeader| {
        assert PlanHeader[q..q + 2][1] == PlanHeader[q + 1];
      }
    }
  }

  /** Corrected: the prescribed header is a header for "SAVING PLAN" when a suffix is allowed. */
  lemma PlanHeaderFound()
    ensures IsHeader(PlanHeader, PlanName, Prefix)
  {
    PlanHeaderRest();
    LowerAppend(PlanName, " (3-6 MONTHS)");
    assert HeaderAt(PlanHeader, PlanName, Prefix, 0);
  }

  /**
   * As written, a reply that follows the prompt's saving-plan header has no
   * saving-plan section, whatever plan text follows; with the corrected header
   * rule the plan text is found.
   */
  lemma {:induction false} SavingPlanSection(plan: string)
    requires !Blank(plan) && !Contains(plan, "##") && '\n' !in plan
    ensures SectionOf([PlanHeader, plan], PlanName, Exact) == ""
    ensures SectionOf([PlanHeader, plan], PlanName, Prefix) == Trim(plan)
  {
    var lines := [PlanHeader, plan];
    PlanHeaderMissed();
    PlanHeaderFound();
    assert FirstHeader(lines, PlanName, Exact, 0) == None by {
      assert FirstHeader(lines, PlanName, Exact, 1) == None;
    }
    assert FirstHeader(lines, PlanName, Prefix, 0) == Some(0);
    assert FirstFilled(lines, 1) == 1;
    assert SectionEnd(lines, 1) == 2;
    assert lines[1..2] == [plan];
  }

  // ---------------------------------------------------------------- bullets

  /** The characters `^[\s\-*•]+` removes from the front of a bullet line. */
  predicate IsBulletChar(c: char) {
    IsSpace(c) || c == '-' || c == '*' || c == '\U{2022}'
  }

  /** The first index at or after `i` that does not hold a bullet character. */
  function BulletStart(line: string, i: nat): (j: nat)
    requires i <= |line|
    ensures i <= j <= |line|
    ensures forall k :: i <= k < j ==> IsBulletChar(line[k])
    ensures j < |line| ==> !IsBulletChar(line[j])
    decreases |line| - i
  {
    if i < |line| && IsBulletChar(line[i]) then BulletStart(line, i + 1) else i
  }

  /** A bullet item: not empty, no bullet marker in front, no whitespace at the end. */
  predicate IsItem(s: string) {
    s != [] && !IsBulletChar(s[0]) && !IsSpace(s[|s| - 1])
  }

  /** One line with its bullet marker and surrounding whitespace removed. */
  function StripBullet(line: string): (item: string)
    ensures item == [] || IsItem(item)
    ensures |item| <= |line|
  {
    var start := BulletStart(line, 0);
    var rest := line[start..];
    var item := Trim(rest);
    assert item != [] ==> item[0] == rest[SkipSpaces(rest, 0)];
    item
  }

  /** The stripped, non-empty lines, in their original order. */
  function BulletItems(lines: seq<string>): (items: seq<string>)
    ensures |items| <= |lines|
    ensures forall k :: 0 <= k < |items| ==> IsItem(items[k])
  {
    if |lines| == 0 then []
    else
      var item := StripBullet(lines[0]);
      (if item == [] then [] else [item]) + BulletItems(lines[1..])
  }

  /** Items of a longer text are the items of its parts, in order. */
  lemma {:induction false} BulletItemsAppend(a: seq<string>, b: seq<string>)
    ensures BulletItems(a + b) == BulletItems(a) + BulletItems(b)
    decreases |a|
  {
    if |a| == 0 {
      assert a + b == b;
    } else {
      var item := StripBullet(a[0]);
      var head := if item == [] then [] else [item];
      assert (a + b)[0] == a[0];
      assert (a + b)[1..] == a[1..] + b;
      assert BulletItems(a + b) == head + BulletItems(a[1..] + b);
      BulletItemsAppend(a[1..], b);
      assert BulletItems(a) == head + BulletItems(a[1..]);
    }
  }

  /** The items of one line: the line stripped, or nothing when that leaves it empty. */
  lemma BulletItemsSingle(line: string)
    ensures BulletItems([line]) == (if StripBullet(line) == [] then [] else [StripBullet(line)])
  {
    assert [line][1..] == [];
  }

  lemma BulletItemsStep(lines: seq<string>, i: nat)
    requires i < |lines|
    ensures BulletItems(lines[..i + 1]) ==
      BulletItems(lines[..i]) + (if StripBullet(lines[i]) == [] then [] else [StripBullet(lines[i])])
  {
    BulletItemsAppend(lines[..i], [lines[i]]);
    BulletItemsSingle(lines[i]);
    assert lines[..i + 1] == lines[..i] + [lines[i]];
  }

  /** A section as a list of bullet items. */
  function Bullets(raw: string): (items: seq<string>)
  {
    BulletItems(Split(raw, '\n'))
  }

  /** The list-building loop: line by line, keeping the stripped lines that are not empty. */
  method BulletList(raw: string) returns (items: seq<string>)
    ensures items == Bullets(raw)
  {
    var lines := Split(raw, '\n');
    items := [];
    var i := 0;
    while i < |lines|
      invariant 0 <= i <= |lines|
      invariant items == BulletItems(lines[..i])
    {
      var line := StripBullet(lines[i]);
      BulletItemsStep(lines, i);
      if line != [] {
        items := items + [line];
      }
      i := i + 1;
    }
    assert lines[..|lines|] == lines;
  }

  // ---------------------------------------------------------- month markers

  /**
   * `Months?\s*<range>` starting at `i`, in any case: "month", an optional "s",
   * optional whitespace, then the range. Returns the index after the range.
   */
  function TagAt(t: string, i: nat, range: string): (e: Option<nat>)
    ensures e.Some? ==> i + 5 + |range| <= e.value <= |t| && t[e.value - |range|..e.value] == range
    ensures e.Some? ==> Lower(t[i..i + 5]) == "month"
    ensures e.Some? ==>
      var k := e.value - |range|;
      SpacesBetween(t, i + 5, k) || (i + 5 < k && LowerChar(t[i + 5]) == 's' && SpacesBetween(t, i + 6, k))
  {
    if i + 5 <= |t| && Lower(t[i..i + 5]) == "month" then
      var j := if i + 5 < |t| && LowerChar(t[i + 5]) == 's' then i + 6 else i + 5;
      var k := SkipSpaces(t, j);
      if k + |range| <= |t| && t[k..k + |range|] == range then Some(k + |range|) else None
    else None
  }

  /** The leftmost marker for `range` starting at or after `i`: its start and its end. */
  function FindTag(t: string, i: nat, range: string): (r: Option<(nat, nat)>)
    ensures r.Some? ==> i <= r.value.0 && TagAt(t, r.value.0, range) == Some(r.value.1)
    ensures r.Some? ==> forall s :: i <= s < r.value.0 ==> TagAt(t, s, range).None?
    ensures r.None? ==> forall s :: i <= s ==> TagAt(t, s, range).None?
    decreases |t| - i
  {
    if i + 5 > |t| then
      assert forall s :: i <= s ==> TagAt(t, s, range).None?;
      None
    else if TagAt(t, i, range).Some? then Some((i, TagAt(t, i, range).value))
    else FindTag(t, i + 1, range)
  }

  /** The optional `:` or `-` after a marker. */
  function SkipSeparator(t: string, e: nat): (f: nat)
    requires e <= |t|
    ensures e <= f <= |t| && f <= e + 1
    ensures f == e + 1 <==> e < |t| && (t[e] == ':' || t[e] == '-')
  {
    if e < |t| && (t[e] == ':' || t[e] == '-') then e + 1 else e
  }

  /**
   * The "Months 1-3" text: from after the leftmost 1-3 marker to the first 4-6
   * marker after it, or to the end, stripped.
   */
  function FirstPhase(raw: string): (r: Option<string>)
    ensures r.Some? <==> FindTag(raw, 0, "1-3").Some?
    ensures r.Some? ==> r.value == [] || (!IsSpace(r.value[0]) && !IsSpace(r.value[|r.value| - 1]))
  {
    match FindTag(raw, 0, "1-3")
    case None => None
    case Some((_, e)) =>
      var from := SkipSeparator(raw, e);
      var stop := match FindTag(raw, from, "4-6") case Some((s, _)) => s case None => |raw|;
      Some(Trim(raw[from..stop]))
  }

  /** The "Months 4-6" text: everything after the leftmost 4-6 marker, stripped. */
  function SecondPhase(raw: string): (r: Option<string>)
    ensures r.Some? <==> FindTag(raw, 0, "4-6").Some?
    ensures r.Some? ==> r.value == [] || (!IsSpace(r.value[0]) && !IsSpace(r.value[|r.value| - 1]))
  {
    match FindTag(raw, 0, "4-6")
    case None => None
    case Some((_, e)) => Some(Trim(raw[SkipSeparator(raw, e)..]))
  }

  /**
   * The saving plan `parse_ai_response` returns for the plan section `raw`: `None`
   * when neither marker occurs, otherwise exactly the keys of the markers that
   * occur, each holding the bullet items of its phase.
   */
  ghost predicate IsSavingPlan(plan: Option<map<string, seq<string>>>, raw: string) {
    (plan.None? <==> FirstPhase(raw).None? && SecondPhase(raw).None?) &&
    (plan.Some? ==>
      plan.value.Keys <= {"months_1_3", "months_4_6"} &&
      ("months_1_3" in plan.value <==> FirstPhase(raw).Some?) &&
      ("months_4_6" in plan.value <==> SecondPhase(raw).Some?) &&
      (FirstPhase(raw).Some? ==> plan.value["months_1_3"] == Bullets(FirstPhase(raw).value)) &&
      (SecondPhase(raw).Some? ==> plan.value["months_4_6"] == Bullets(SecondPhase(raw).value)))
  }

  /** An empty section holds neither marker. */
  lemma NoPhaseInEmpty()
    ensures FirstPhase("").None? && SecondPhase("").None?
  {
    assert FindTag("", 0, "1-3").None?;
  }

  /** An empty section holds no marker, so it yields no plan. */
  lemma EmptySectionNoPlan(plan: Option<map<string, seq<string>>>)
    requires IsSavingPlan(plan, "")
    ensures plan.None?
  {
    NoPhaseInEmpty();
  }

  /** The plan dictionary, filled key by key for the markers that were found. */
  method SavingPlan(raw: string) returns (plan: Option<map<string, seq<string>>>)
    ensures IsSavingPlan(plan, raw)
  {
    var dict: map<string, seq<string>> := map[];
    ghost var found := FirstPhase(raw).Some? || SecondPhase(raw).Some?;
    if raw != "" {
      var first := FirstPhase(raw);
      var second := SecondPhase(raw);
      if first.Some? {
        var items := BulletList(first.value);
        dict := dict["months_1_3" := items];
      }
      if second.Some? {
        var items := BulletList(second.value);
        dict := dict["months_4_6" := items];
      }
      assert "months_1_3" in dict.Keys <==> first.Some?;
      assert "months_4_6" in dict.Keys <==> second.Some?;
      assert dict.Keys <= {"months_1_3", "months_4_6"};
      assert dict == map[] <==> !found;
    } else {
      NoPhaseInEmpty();
    }
    if dict == map[] {
      plan := None;
    } else {
      plan := Some(dict);
    }
  }
}
