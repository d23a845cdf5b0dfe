/**
 * The form rules of the tool page (pages/ToolPage.tsx): how many questions
 * or slides to ask for, which week days a lesson plan covers, and what an
 * attached file contributes to a request.
 */
module FormRules {
  import opened Wrappers
  import JsText

  // ---------------------------------------------------------------- counts

  /** The count buttons: the four presets and "Personalizado". */
  datatype CountType = Five | Ten | Fifteen | Twenty | Custom

  /** The value each button stores: `'5'`, `'10'`, `'15'`, `'20'` or `'custom'`. */
  function Label(t: CountType): (text: string)
    ensures text == "custom" <==> t == Custom
    ensures t != Custom ==> text == JsText.NatToString(PresetCount(t))
  {
    match t
    case Five => "5"
    case Ten => "10"
    case Fifteen => "15"
    case Twenty => "20"
    case Custom => "custom"
  }

  /** The number each preset button stands for. */
  function PresetCount(t: CountType): nat
    requires t != Custom
  {
    match t
    case Five => 5
    case Ten => 10
    case Fifteen => 15
    case Twenty => 20
  }

  const MinCount: int := 1
  const MaxCount: int := 50

  /**
   * The custom count field: `Math.min(50, Math.max(1, parseInt(raw) || 1))`.
   * NaN and 0 are falsy and become 1; the rest is clamped into [1, 50].
   */
  function ClampCount(raw: string): (n: int)
    ensures MinCount <= n <= MaxCount
    ensures JsText.ParseInt(raw).Some? && MinCount <= JsText.ParseInt(raw).value <= MaxCount ==>
      n == JsText.ParseInt(raw).value
    ensures JsText.ParseInt(raw).Some? && JsText.ParseInt(raw).value > MaxCount ==> n == MaxCount
    ensures JsText.ParseInt(raw).None? || JsText.ParseInt(raw).value < MinCount ==> n == MinCount
  {
    var parsed := match JsText.ParseInt(raw)
      case Some(v) => if v != 0 then v else 1
      case None => 1;
    var atLeastOne := if parsed < MinCount then MinCount else parsed;
    if atLeastOne > MaxCount then MaxCount else atLeastOne
  }

  /** Typing any count in range keeps it. */
  lemma {:induction false} ClampKeepsInRange(n: nat)
    requires MinCount <= n <= MaxCount
    ensures ClampCount(JsText.NatToString(n)) == n
  {
    JsText.ParseIntOfNatToString(n);
  }

  /** Re-entering a clamped count changes nothing. */
  lemma {:induction false} ClampIdempotent(raw: string)
    ensures ClampCount(JsText.IntToString(ClampCount(raw))) == ClampCount(raw)
  {
    ClampKeepsInRange(ClampCount(raw));
  }

  /** `parseInt` reads a preset label as its number. */
  lemma {:induction false} LabelParses(n: nat, text: string)
    requires JsText.NatToString(n) == text
    ensures JsText.ParseInt(text) == Some(n as int)
  {
    JsText.ParseIntOfNatToString(n);
  }

  lemma {:induction false} PresetLabelParses(t: CountType)
    requires t != Custom
    ensures JsText.ParseInt(Label(t)) == Some(PresetCount(t) as int)
  {
    assert JsText.NatToString(PresetCount(t)) == Label(t);
    LabelParses(PresetCount(t), Label(t));
  }

  /** `countType === 'custom' ? countCustom : parseInt(countType)`. */
  function FinalCount(t: CountType, custom: int): (n: int)
    ensures t == Custom ==> n == custom
    ensures t != Custom ==> n == PresetCount(t)
  {
    if t == Custom then custom
    else
      PresetLabelParses(t);
      JsText.ParseInt(Label(t)).value
  }

  /** The count sent with a request is always in [1, 50] when the custom field is. */
  lemma {:induction false} FinalCountInRange(t: CountType, custom: int)
    requires MinCount <= custom <= MaxCount
    ensures MinCount <= FinalCount(t, custom) <= MaxCount
  {
  }

  // ------------------------------------------------------------- week days

  /** A `Record<string, boolean>`: its entries in insertion order. */
  type DayMap = seq<(string, bool)>

  /** The lesson plan's days, Monday to Friday ticked. */
  const DefaultDays: DayMap := [
    ("Segunda-feira", true),
    ("Terça-feira", true),
    ("Quarta-feira", true),
    ("Quinta-feira", true),
    ("Sexta-feira", true),
    ("Sábado", false),
    ("Domingo", false)
  ]

  /** `Object.keys(days)`. */
  function Keys(days: DayMap): (keys: seq<string>)
    ensures |keys| == |days| && forall i :: 0 <= i < |days| ==> keys[i] == days[i].0
  {
    if days == [] then [] else [days[0].0] + Keys(days[1..])
  }

  /** `days[day]`, where a missing day is `undefined` and so counts as false. */
  function Value(days: DayMap, day: string): (v: bool)
    ensures v ==> day in Keys(days)
  {
    if days == [] then false
    else if days[0].0 == day then days[0].1
    else Value(days[1..], day)
  }

  /** `Object.keys(days).filter(day => days[day])`. */
  function SelectedDays(days: DayMap): (selected: seq<string>)
    ensures |selected| <= |days|
  {
    if days == [] then []
    else (if days[0].1 then [days[0].0] else []) + SelectedDays(days[1..])
  }

  /** The selected days are the keys of the entries that are true. */
  lemma {:induction false} SelectedDaysMembership(days: DayMap, d: string)
    ensures d in SelectedDays(days) <==> exists i :: 0 <= i < |days| && days[i] == (d, true)
    decreases |days|
  {
    if days != [] {
      SelectedDaysMembership(days[1..], d);
      assert forall i :: 1 <= i < |days| ==> days[i] == days[1..][i - 1];
      if d in SelectedDays(days[1..]) {
        var i :| 0 <= i < |days[1..]| && days[1..][i] == (d, true);
        assert days[i + 1] == (d, true);
      }
    }
  }

  predicate DistinctKeys(days: DayMap) {
    forall i, j :: 0 <= i < j < |days| ==> days[i].0 != days[j].0
  }

  /** With distinct keys a day is selected exactly when its entry is true. */
  lemma {:induction false} SelectedByValue(days: DayMap, day: string)
    requires DistinctKeys(days)
    ensures day in SelectedDays(days) <==> day in Keys(days) && Value(days, day)
    decreases |days|
  {
    if days != [] {
      SelectedByValue(days[1..], day);
      if days[0].0 == day {
        assert day !in Keys(days[1..]);
      }
    }
  }

  /** With distinct keys, the days sent are exactly the keys whose value is true. */
  lemma {:induction false} SelectedDaysExactly(days: DayMap)
    ensures DistinctKeys(days) ==>
      forall d :: d in SelectedDays(days) <==> d in Keys(days) && Value(days, d)
  {
    if DistinctKeys(days) {
      forall d ensures d in SelectedDays(days) <==> d in Keys(days) && Value(days, d) {
        SelectedByValue(days, d);
      }
    }
  }

  /** The selection keeps the declared order: it works entry by entry. */
  lemma {:induction false} SelectedDaysConcat(a: DayMap, b: DayMap)
    ensures SelectedDays(a + b) == SelectedDays(a) + SelectedDays(b)
    decreases |a|
  {
    if a == [] {
      assert a + b == b;
    } else {
      var head := if a[0].1 then [a[0].0] else [];
      assert (a + b)[0] == a[0] && (a + b)[1..] == a[1..] + b;
      SelectedDaysConcat(a[1..], b);
      assert SelectedDays(a + b) == head + (SelectedDays(a[1..]) + SelectedDays(b));
      assert head + (SelectedDays(a[1..]) + SelectedDays(b)) == (head + SelectedDays(a[1..])) + SelectedDays(b);
    }
  }

  /** By default a lesson plan covers Monday to Friday, in that order. */
  lemma {:induction false} DefaultDaysDistinct()
    ensures DistinctKeys(DefaultDays)
  {
  }

  lemma {:induction false} DefaultSelection()
    ensures SelectedDays(DefaultDays) == ["Segunda-feira", "Terça-feira", "Quarta-feira", "Quinta-feira", "Sexta-feira"]
  {
  }

  /** `{...days, [day]: !days[day]}`: flips one day in place, or adds it ticked at the end. */
  function ToggleDay(days: DayMap, day: string): (r: DayMap)
    ensures |r| == |days| || |r| == |days| + 1
  {
    if days == [] then [(day, true)]
    else if days[0].0 == day then [(day, !days[0].1)] + days[1..]
    else [days[0]] + ToggleDay(days[1..], day)
  }

  /** Toggling flips the value of that day and of no other. */
  lemma {:induction false} ToggleDayValue(days: DayMap, day: string, d: string)
    ensures Value(ToggleDay(days, day), d) == if d == day then !Value(days, d) else Value(days, d)
    decreases |days|
  {
    if days != [] && days[0].0 != day {
      var r := ToggleDay(days, day);
      assert r[1..] == ToggleDay(days[1..], day);
      ToggleDayValue(days[1..], day, d);
    } else if days != [] {
      var r := ToggleDay(days, day);
      assert r[1..] == days[1..];
    }
  }

  /** Toggling keeps the keys in order; a day not yet listed is added at the end. */
  lemma {:induction false} ToggleDayKeys(days: DayMap, day: string)
    ensures day in Keys(days) ==> Keys(ToggleDay(days, day)) == Keys(days)
    ensures day !in Keys(days) ==> Keys(ToggleDay(days, day)) == Keys(days) + [day]
    decreases |days|
  {
    if days != [] {
      var r := ToggleDay(days, day);
      assert Keys(days) == [days[0].0] + Keys(days[1..]);
      assert Keys(r) == [r[0].0] + Keys(r[1..]);
      if days[0].0 != day {
        assert r[1..] == ToggleDay(days[1..], day);
        ToggleDayKeys(days[1..], day);
      } else {
        assert r[1..] == days[1..];
      }
    }
  }

  /** Toggling a listed day twice gives the days back. */
  lemma {:induction false} ToggleDayTwice(days: DayMap, day: string)
    requires day in Keys(days)
    ensures ToggleDay(ToggleDay(days, day), day) == days
    decreases |days|
  {
    if days[0].0 != day {
      assert Keys(days) == [days[0].0] + Keys(days[1..]);
      ToggleDayTwice(days[1..], day);
    }
  }

  /** Toggling keeps the keys distinct. */
  lemma {:induction false} ToggleKeepsDistinct(days: DayMap, day: string)
    requires DistinctKeys(days)
    ensures DistinctKeys(ToggleDay(days, day))
  {
    var r := ToggleDay(days, day);
    ToggleDayKeys(days, day);
    forall i, j | 0 <= i < j < |r| ensures r[i].0 != r[j].0 {
      assert Keys(r)[i] == r[i].0 && Keys(r)[j] == r[j].0;
      if day in Keys(days) {
        assert Keys(days)[i] == days[i].0 && Keys(days)[j] == days[j].0;
      } else if j < |days| {
        assert Keys(days)[i] == days[i].0 && Keys(days)[j] == days[j].0;
      } else {
        assert Keys(days)[i] == days[i].0;
      }
    }
  }

  // ----------------------------------------------------------- attachments

  /** `dataUrl.split(',')[1]`: the text after the first comma, up to any second one, or `undefined`. */
  function AttachmentData(dataUrl: string): (data: Option<string>)
    ensures data.Some? ==> ',' !in data.value
    ensures data.None? <==> ',' !in dataUrl
  {
    var parts := JsText.Split(dataUrl, ',');
    JsText.SplitPieces(dataUrl, ',');
    if |parts| >= 2 then Some(parts[1]) else None
  }

  /** A `data:` URL gives back the base64 payload that follows its header. */
  lemma {:induction false} AttachmentDataOfDataUrl(header: string, payload: string)
    requires ',' !in header && ',' !in payload
    ensures AttachmentData(header + "," + payload) == Some(payload)
  {
    JsText.SplitAtSeparator(header, ',', payload);
    JsText.SplitWithoutSeparator(payload, ',');
  }
}
