/** Unit spelling, conversion to a base unit, and conversion between units.
    Models backend/app/core/units.py over the reals. */
module Units {

  datatype Option<+T> = None | Some(value: T)

  /** A normalised unit: a row of the conversion table, or any other text (pieces, packs, ...). */
  datatype Unit =
    | G | Kg | Oz | Lb
    | Ml | L | Gallon | Pint | Cup | Tbsp | Tsp
    | Plain(text: string)

  /** The conversion table; a plain unit is its own base. */
  function Base(u: Unit): Unit {
    match u
    case G | Kg | Oz | Lb => G
    case Ml | L | Gallon | Pint | Cup | Tbsp | Tsp => Ml
    case Plain(_) => u
  }

  function Factor(u: Unit): (f: real)
    ensures f > 0.0
  {
    match u
    case G => 1.0
    case Kg => 1000.0
    case Oz => 28.3495
    case Lb => 453.592
    case Ml => 1.0
    case L => 1000.0
    case Gallon => 3785.41
    case Pint => 473.176
    case Cup => 236.588
    case Tbsp => 14.787
    case Tsp => 4.929
    case Plain(_) => 1.0
  }

  predicate InTable(u: Unit) {
    !u.Plain?
  }

  function ToBase(quantity: real, u: Unit): (real, Unit) {
    if InTable(u) then (quantity * Factor(u), Base(u)) else (quantity, u)
  }

  // ----- Spelling -----

  /** The characters that Python's str.strip removes. */
  predicate IsSpace(c: char) {
    var code := c as int;
    9 <= code <= 13 || 28 <= code <= 32 || 8192 <= code <= 8202
      || code in {133, 160, 5760, 8232, 8233, 8239, 8287, 12288}
  }

  function StripLeft(s: string): string {
    if s != "" && IsSpace(s[0]) then StripLeft(s[1..]) else s
  }

  function StripRight(s: string): string {
    if s != "" && IsSpace(s[|s| - 1]) then StripRight(s[..|s| - 1]) else s
  }

  function Strip(s: string): string {
    StripRight(StripLeft(s))
  }

  function LowerChar(c: char): char {
    if 'A' <= c <= 'Z' then (c as int + 32) as char else c
  }

  function Lower(s: string): string {
    seq(|s|, i requires 0 <= i < |s| => LowerChar(s[i]))
  }

  /** The alias dictionary, applied to stripped lower-case text. */
  function Alias(t: string): Unit {
    match t
    case "g" | "gram" | "grams" => G
    case "kg" | "kilogram" | "kilograms" => Kg
    case "ml" | "milliliter" | "milliliters" | "millilitre" | "millilitres" => Ml
    case "l" | "liter" | "liters" | "litre" | "litres" => L
    case "oz" | "ounce" | "ounces" => Oz
    case "lb" | "lbs" | "pound" | "pounds" => Lb
    case "cup" | "cups" => Cup
    case "tbsp" | "tablespoon" | "tablespoons" => Tbsp
    case "tsp" | "teaspoon" | "teaspoons" => Tsp
    case "gallon" | "gallons" => Gallon
    case "pint" | "pints" => Pint
    case "piece" | "pieces" => Plain("piece")
    case "unit" | "units" => Plain("unit")
    case "pack" | "packs" | "pk" => Plain("pack")
    case "can" | "cans" => Plain("can")
    case "bottle" | "bottles" => Plain("bottle")
    case "slice" | "slices" => Plain("slice")
    case _ => Plain(t)
  }

  function Normalize(raw: string): Unit {
    Alias(Lower(Strip(raw)))
  }

  /** The normalised spelling, which is what gets stored. */
  function Text(u: Unit): string {
    match u
    case G => "g"
    case Kg => "kg"
    case Oz => "oz"
    case Lb => "lb"
    case Ml => "ml"
    case L => "l"
    case Gallon => "gallon"
    case Pint => "pint"
    case Cup => "cup"
    case Tbsp => "tbsp"
    case Tsp => "tsp"
    case Plain(text) => text
  }

  function ConvertToBase(quantity: real, raw: string): (real, Unit) {
    ToBase(quantity, Normalize(raw))
  }

  predicate AreCompatible(rawA: string, rawB: string) {
    var a, b := Normalize(rawA), Normalize(rawB);
    if a == b then true
    else if !InTable(a) || !InTable(b) then false
    else Base(a) == Base(b)
  }

  function ConvertQuantity(quantity: real, rawFrom: string, rawTo: string): Option<real> {
    var from, to := Normalize(rawFrom), Normalize(rawTo);
    if from == to then Some(quantity)
    else if !InTable(from) || !InTable(to) then None
    else if Base(from) != Base(to) then None
    else Some(quantity * Factor(from) / Factor(to))
  }

  // ----- Laws -----

  lemma {:induction false} StripLeftEnds(s: string)
    ensures StripLeft(s) == "" || !IsSpace(StripLeft(s)[0])
  {
    if s != "" && IsSpace(s[0]) {
      StripLeftEnds(s[1..]);
    }
  }

  lemma {:induction false} StripRightEnds(s: string)
    ensures StripRight(s) == "" || !IsSpace(StripRight(s)[|StripRight(s)| - 1])
    ensures StripRight(s) <= s
  {
    if s != "" && IsSpace(s[|s| - 1]) {
      StripRightEnds(s[..|s| - 1]);
    }
  }

  /** Text that stripping and lower-casing leave alone. */
  predicate Trimmed(s: string) {
    && (s == "" || (!IsSpace(s[0]) && !IsSpace(s[|s| - 1])))
    && forall i :: 0 <= i < |s| ==> LowerChar(s[i]) == s[i]
  }

  lemma TrimmedIsFixed(s: string)
    requires Trimmed(s)
    ensures Lower(Strip(s)) == s
  {
    assert Strip(s) == s;
  }

  lemma LowerStripIsTrimmed(s: string)
    ensures Trimmed(Lower(Strip(s)))
  {
    StripLeftEnds(s);
    StripRightEnds(StripLeft(s));
    var m := Strip(s);
    if m != "" {
      assert !IsSpace(m[0]) && !IsSpace(m[|m| - 1]);
    }
  }

  lemma TextIsTrimmed(u: Unit)
    requires u.Plain? ==> Trimmed(u.text)
    ensures Trimmed(Text(u))
  {
  }

  lemma AliasOfText(t: string)
    ensures Alias(Text(Alias(t))) == Alias(t)
  {
  }

  lemma CountWordsAreTrimmed(w: string)
    requires w in ["piece", "unit", "pack", "can", "bottle", "slice"]
    ensures Trimmed(w)
  {
  }

  lemma AliasIsTrimmed(t: string)
    requires Trimmed(t)
    ensures Alias(t).Plain? ==> Trimmed(Alias(t).text)
  {
    var u := Alias(t);
    if u.Plain? && u.text != t {
      assert u.text in ["piece", "unit", "pack", "can", "bottle", "slice"];
      CountWordsAreTrimmed(u.text);
    }
  }

  /** Storing the normalised spelling loses nothing: reading it back gives the same unit. */
  lemma NormalizeIsIdempotent(raw: string)
    ensures Normalize(Text(Normalize(raw))) == Normalize(raw)
  {
    var t := Lower(Strip(raw));
    LowerStripIsTrimmed(raw);
    AliasOfText(t);
    AliasIsTrimmed(t);
    TextIsTrimmed(Alias(t));
    TrimmedIsFixed(Text(Alias(t)));
  }

  /** Two units are compatible exactly when conversion to base lands in the same base unit,
      so compatibility is an equivalence relation. */
  lemma CompatibleIffSameBase(rawA: string, rawB: string, q: real)
    ensures AreCompatible(rawA, rawB) <==> ConvertToBase(q, rawA).1 == ConvertToBase(q, rawB).1
  {
  }

  lemma ScaleBack(q: real, a: real, b: real)
    requires a > 0.0 && b > 0.0
    ensures q * a / b * b == q * a && q * a / b * b / a == q
  {
    var x := q * a;
    assert x / b * b == x;
  }

  /** Conversion succeeds exactly on compatible units, keeps the base quantity, and comes back. */
  lemma ConvertKeepsBase(q: real, rawFrom: string, rawTo: string)
    ensures ConvertQuantity(q, rawFrom, rawTo).Some? <==> AreCompatible(rawFrom, rawTo)
    ensures ConvertQuantity(q, rawFrom, rawTo).Some? ==>
              var r := ConvertQuantity(q, rawFrom, rawTo).value;
              && ConvertToBase(r, rawTo) == ConvertToBase(q, rawFrom)
              && ConvertQuantity(r, rawTo, rawFrom) == Some(q)
  {
    ScaleBack(q, Factor(Normalize(rawFrom)), Factor(Normalize(rawTo)));
  }

  /** Conversions compose: going through a third compatible unit changes nothing. */
  lemma ConvertComposes(q: real, a: string, b: string, c: string)
    requires AreCompatible(a, b) && AreCompatible(b, c)
    ensures ConvertQuantity(q, a, b).Some?
    ensures ConvertQuantity(ConvertQuantity(q, a, b).value, b, c) == ConvertQuantity(q, a, c)
  {
    ConvertKeepsBase(q, a, b);
    var r := ConvertQuantity(q, a, b).value;
    ConvertKeepsBase(r, b, c);
    ConvertKeepsBase(q, a, c);
  }

  lemma BaseSpelling(raw: string)
    ensures var b := Base(Normalize(raw)); Normalize(Text(b)) == b
  {
    var u := Normalize(raw);
    if u.Plain? {
      NormalizeIsIdempotent(raw);
    } else {
      TextIsTrimmed(Base(u));
      TrimmedIsFixed(Text(Base(u)));
    }
  }

  /** Reserved quantities are stored in base units; converting them again is the identity. */
  lemma BaseIsFixed(q: real, raw: string, x: real)
    ensures var b := ConvertToBase(q, raw).1; ConvertToBase(x, Text(b)) == (x, b)
  {
    BaseSpelling(raw);
    assert ConvertToBase(q, raw).1 == Base(Normalize(raw));
  }

  // ----- The tables, row by row -----

  lemma TrimmedIsItself(w: string)
    requires Trimmed(w)
    ensures Normalize(w) == Alias(w)
  {
    TrimmedIsFixed(w);
  }

  /** Masses come to grams. */
  lemma MetricMasses(q: real)
    ensures ConvertToBase(q, "g") == (q, G) && ConvertToBase(q, "kg") == (q * 1000.0, G)
  {
    TrimmedIsItself("g");
    TrimmedIsItself("kg");
  }

  lemma ImperialMasses(q: real)
    ensures ConvertToBase(q, "oz") == (q * 28.3495, G) && ConvertToBase(q, "lb") == (q * 453.592, G)
  {
    TrimmedIsItself("oz");
    TrimmedIsItself("lb");
  }

  /** Volumes come to millilitres. */
  lemma MetricVolumes(q: real)
    ensures ConvertToBase(q, "ml") == (q, Ml) && ConvertToBase(q, "l") == (q * 1000.0, Ml)
  {
    TrimmedIsItself("ml");
    TrimmedIsItself("l");
  }

  lemma LargeVolumes(q: real)
    ensures ConvertToBase(q, "gallon") == (q * 3785.41, Ml)
  {
    TrimmedIsItself("gallon");
  }

  lemma MiddleVolumes(q: real)
    ensures ConvertToBase(q, "pint") == (q * 473.176, Ml) && ConvertToBase(q, "cup") == (q * 236.588, Ml)
  {
    TrimmedIsItself("pint");
    TrimmedIsItself("cup");
  }

  lemma SmallVolumes(q: real)
    ensures ConvertToBase(q, "tbsp") == (q * 14.787, Ml) && ConvertToBase(q, "tsp") == (q * 4.929, Ml)
  {
    TrimmedIsItself("tbsp");
    TrimmedIsItself("tsp");
  }

  /** The words that stand for each unit. */
  lemma AliasesOfMasses(w: string)
    ensures w in ["g", "gram", "grams"] ==> Alias(w) == G
    ensures w in ["kg", "kilogram", "kilograms"] ==> Alias(w) == Kg
    ensures w in ["ml", "milliliter", "milliliters", "millilitre", "millilitres"] ==> Alias(w) == Ml
    ensures w in ["l", "liter", "liters", "litre", "litres"] ==> Alias(w) == L
    ensures w in ["oz", "ounce", "ounces"] ==> Alias(w) == Oz
    ensures w in ["lb", "lbs", "pound", "pounds"] ==> Alias(w) == Lb
  {
  }

  lemma AliasesOfVolumes(w: string)
    ensures w in ["cup", "cups"] ==> Alias(w) == Cup
    ensures w in ["tbsp", "tablespoon", "tablespoons"] ==> Alias(w) == Tbsp
    ensures w in ["tsp", "teaspoon", "teaspoons"] ==> Alias(w) == Tsp
    ensures w in ["gallon", "gallons"] ==> Alias(w) == Gallon
    ensures w in ["pint", "pints"] ==> Alias(w) == Pint
  {
  }

  lemma AliasesOfCounts(w: string)
    ensures w in ["piece", "pieces"] ==> Alias(w) == Plain("piece")
    ensures w in ["unit", "units"] ==> Alias(w) == Plain("unit")
    ensures w in ["pack", "packs", "pk"] ==> Alias(w) == Plain("pack")
    ensures w in ["can", "cans"] ==> Alias(w) == Plain("can")
    ensures w in ["bottle", "bottles"] ==> Alias(w) == Plain("bottle")
    ensures w in ["slice", "slices"] ==> Alias(w) == Plain("slice")
  {
  }

  /** Any word that is in no row of the tables is kept as it is, and is its own base unit. */
  lemma UnknownIsKept(q: real, w: string)
    requires Trimmed(w)
    requires w !in ["g", "gram", "grams", "kg", "kilogram", "kilograms", "oz", "ounce", "ounces", "lb", "lbs", "pound",
             "pounds"]
    requires w !in ["ml", "milliliter", "milliliters", "millilitre", "millilitres", "l", "liter", "liters", "litre",
             "litres", "cup", "cups", "tbsp", "tablespoon", "tablespoons", "tsp", "teaspoon", "teaspoons", "gallon",
             "gallons", "pint", "pints"]
    requires w !in ["piece", "pieces", "unit", "units", "pack", "packs", "pk", "can", "cans", "bottle", "bottles",
             "slice", "slices"]
    ensures ConvertToBase(q, w) == (q, Plain(w))
  {
    TrimmedIsItself(w);
  }

  lemma {:induction false} StripRightOneMore(s: string, c: char)
    requires IsSpace(c)
    ensures StripRight(s + [c]) == StripRight(s)
  {
    assert (s + [c])[..|s|] == s;
  }

  lemma {:induction false} StripLeftThenSpace(s: string, c: char)
    requires IsSpace(c)
    ensures StripRight(StripLeft(s + [c])) == StripRight(StripLeft(s))
  {
    if s == "" {
      assert s + [c] == [c] && [c][1..] == "";
    } else if IsSpace(s[0]) {
      assert (s + [c])[1..] == s[1..] + [c];
      StripLeftThenSpace(s[1..], c);
    } else {
      StripRightOneMore(s, c);
    }
  }

  /** Space before or after a unit makes no difference. */
  lemma SpaceIsIgnored(raw: string, c: char)
    requires c in " \t\n"
    ensures Normalize([c] + raw) == Normalize(raw) == Normalize(raw + [c])
  {
    assert ([c] + raw)[1..] == raw;
    StripLeftThenSpace(raw, c);
  }

  /** Nor does the case of a word. */
  lemma CaseIsIgnored(raw: string, other: string)
    requires |raw| == |other|
    requires forall i :: 0 <= i < |raw| ==>
               raw[i] == other[i] || ('A' <= raw[i] <= 'Z' && other[i] as int == raw[i] as int + 32)
    ensures Normalize(raw) == Normalize(other)
  {
    LowerStripSame(raw, other);
  }

  /** Texts that differ in case only. */
  predicate SameLower(a: string, b: string) {
    |a| == |b| && forall i :: 0 <= i < |a| ==> LowerChar(a[i]) == LowerChar(b[i]) && (IsSpace(a[i]) <==> IsSpace(b[i]))
  }

  lemma {:induction false} StripLeftSame(a: string, b: string)
    requires SameLower(a, b)
    ensures SameLower(StripLeft(a), StripLeft(b))
  {
    if a != "" && IsSpace(a[0]) {
      StripLeftSame(a[1..], b[1..]);
    }
  }

  lemma {:induction false} StripRightSame(a: string, b: string)
    requires SameLower(a, b)
    ensures SameLower(StripRight(a), StripRight(b))
  {
    if a != "" && IsSpace(a[|a| - 1]) {
      StripRightSame(a[..|a| - 1], b[..|b| - 1]);
    }
  }

  lemma LowerStripSame(raw: string, other: string)
    requires |raw| == |other|
    requires forall i :: 0 <= i < |raw| ==>
               raw[i] == other[i] || ('A' <= raw[i] <= 'Z' && other[i] as int == raw[i] as int + 32)
    ensures Lower(Strip(raw)) == Lower(Strip(other))
  {
    StripLeftSame(raw, other);
    StripRightSame(StripLeft(raw), StripLeft(other));
  }
}
