/**
 * The Mapmeter usage widget of the GeoServer home page: how it reacts to the JSON envelope
 * served by the Mapmeter data resource, and how the chart data is shaped from the parallel
 * `time` and `request_count` arrays before it is drawn.
 */
module MapmeterWidget {
  import opened Wrappers

  // ---------------------------------------------------------------------------------------
  // The envelope and the widget's message slots
  // ---------------------------------------------------------------------------------------

  /** A field of the reply's `data` object: an array of numbers, null, a string, or any other
   *  JSON value (a number, a boolean or an object without a `length`). */
  datatype Field = Array(items: seq<int>) | Null | Text(s: string) | Other

  /**
   * The reply as the widget reads it. `error` and `reason` are absent when the key is missing
   * or null; `data` is the chart payload object.
   */
  datatype Envelope = Envelope(error: Option<string>, reason: Option<string>,
                               data: Option<map<string, Field>>)

  /** JavaScript truthiness of an optional string: present and not empty. */
  predicate Truthy(s: Option<string>)
  {
    s.Some? && s.value != ""
  }

  /** The elements of the widget's `msg` object. */
  datatype Element = Container | ServerExpired | Unauthorized | MissingCredentials
                   | InvalidApiKey | Unknown

  /** `msg[reason]`: the element whose key in the `msg` object is exactly `reason`. */
  function ElementNamed(reason: string): (r: Option<Element>)
    ensures reason == "missingApiKey" ==> r.None?
    ensures r.Some? ==> KeyOf(r.value) == reason
  {
    if reason == "container" then Some(Container)
    else if reason == "serverExpired" then Some(ServerExpired)
    else if reason == "unauthorized" then Some(Unauthorized)
    else if reason == "missingCredentials" then Some(MissingCredentials)
    else if reason == "invalidApiKey" then Some(InvalidApiKey)
    else if reason == "unknown" then Some(Unknown)
    else None
  }

  /** The key under which the widget stores each element. */
  function KeyOf(e: Element): string
  {
    match e
    case Container => "container"
    case ServerExpired => "serverExpired"
    case Unauthorized => "unauthorized"
    case MissingCredentials => "missingCredentials"
    case InvalidApiKey => "invalidApiKey"
    case Unknown => "unknown"
  }

  lemma ElementNamedKeyOf(e: Element)
    ensures ElementNamed(KeyOf(e)) == Some(e)
  {
  }

  /** The members every plain object inherits from `Object.prototype`: `msg[reason]` finds
   *  them too, and each is truthy. */
  const PrototypeMembers: set<string> :=
    {"constructor", "hasOwnProperty", "isPrototypeOf", "propertyIsEnumerable",
     "toLocaleString", "toString", "valueOf", "__proto__", "__defineGetter__",
     "__defineSetter__", "__lookupGetter__", "__lookupSetter__"}

  /** What `msg[reason]` yields: one of the widget's own elements, an inherited member, or
   *  undefined. */
  datatype Entry = Own(e: Element) | Inherited | Undefined

  function MsgEntry(reason: string): (r: Entry)
    ensures r.Own? <==> ElementNamed(reason).Some?
    ensures r.Own? ==> ElementNamed(reason) == Some(r.e)
    ensures r.Inherited? <==> reason in PrototypeMembers
  {
    match ElementNamed(reason)
    case Some(e) => Own(e)
    case None => if reason in PrototypeMembers then Inherited else Undefined
  }

  /** What the callback does with one reply. */
  datatype Outcome =
    | LogNoData                  // the reply itself is falsy
    | ShowElement(e: Element)    // the reason names a message element
    | ShowThenThrow              // an inherited member: container shown, then `.show` throws
    | Silent                     // reason "missingApiKey"
    | ShowUnknown(text: string)  // any other reason: the unknown slot shows the raw error
    | LogError(error: string)    // an error without a reason
    | DrawChart                  // chart container shown, chart drawn
    | LogUnknownResponse         // neither error nor data

  /** The widget callback's branch on the envelope. */
  function Classify(reply: Option<Envelope>): (r: Outcome)
    ensures reply.None? <==> r.LogNoData?
    ensures r.DrawChart? <==> reply.Some? && !Truthy(reply.value.error) && reply.value.data.Some?
    ensures (r.ShowElement? || r.ShowThenThrow? || r.Silent? || r.ShowUnknown? || r.LogError?)
            <==> reply.Some? && Truthy(reply.value.error)
    ensures r.LogError? <==> reply.Some? && Truthy(reply.value.error) && !Truthy(reply.value.reason)
    ensures r.ShowElement? ==> reply.Some? && Truthy(reply.value.reason)
                               && ElementNamed(reply.value.reason.value) == Some(r.e)
    ensures r.ShowThenThrow? <==> reply.Some? && Truthy(reply.value.error)
                                  && Truthy(reply.value.reason)
                                  && reply.value.reason.value in PrototypeMembers
    ensures r.ShowUnknown? ==> reply.Some? && r.text == reply.value.error.value
                               && MsgEntry(reply.value.reason.value).Undefined?
                               && reply.value.reason.value != "missingApiKey"
  {
    match reply
    case None => LogNoData
    case Some(env) =>
      if Truthy(env.error) then
        if Truthy(env.reason) then
          match MsgEntry(env.reason.value)
          case Own(e) => ShowElement(e)
          case Inherited => ShowThenThrow
          case Undefined =>
            if env.reason.value == "missingApiKey" then Silent else ShowUnknown(env.error.value)
        else LogError(env.error.value)
      else if env.data.Some? then DrawChart
      else LogUnknownResponse
  }

  /** What is visible on the page: shown elements, the unknown slot's text, the chart. */
  datatype Page = Page(shown: set<Element>, unknownText: string, chartShown: bool)

  /** Every element starts hidden; the unknown slot's default text is "Mapmeter error". */
  const Initial := Page({}, "Mapmeter error", false)

  /** The page after the callback has handled one reply. */
  function Apply(reply: Option<Envelope>): (p: Page)
    ensures p.chartShown <==> Classify(reply).DrawChart?
    ensures Container in p.shown <==>
              Classify(reply).ShowElement? || Classify(reply).ShowThenThrow?
              || Classify(reply).ShowUnknown?
    ensures forall e :: e in p.shown ==> Container in p.shown
    ensures !(p.chartShown && Container in p.shown)
    ensures p.unknownText != Initial.unknownText ==> Unknown in p.shown
  {
    match Classify(reply)
    case ShowElement(e) => Page({Container, e}, Initial.unknownText, false)
    case ShowThenThrow => Page({Container}, Initial.unknownText, false)
    case ShowUnknown(text) => Page({Container, Unknown}, text, false)
    case DrawChart => Page({}, Initial.unknownText, true)
    case _ => Initial
  }

  /** A falsy reply, a silent reason, an error without reason or an unknown shape change nothing. */
  lemma NothingVisibleUnlessShown(reply: Option<Envelope>)
    ensures Apply(reply) == Initial
            <==> Classify(reply).LogNoData? || Classify(reply).Silent? || Classify(reply).LogError?
                 || Classify(reply).LogUnknownResponse?
  {
  }

  /** An error is handled before data: a reply with both never draws the chart. */
  lemma ErrorWinsOverData(env: Envelope)
    requires Truthy(env.error) && env.data.Some?
    ensures !Apply(Some(env)).chartShown
  {
  }

  /** A reason naming a message element shows the container and exactly that element. */
  lemma KnownReasonShowsItsSlot(error: string, e: Element, data: Option<map<string, Field>>)
    requires error != ""
    ensures Apply(Some(Envelope(Some(error), Some(KeyOf(e)), data)))
            == Page({Container, e}, "Mapmeter error", false)
  {
  }

  /** "missingApiKey" names no element and changes nothing visible. */
  lemma MissingApiKeyIsSilent(error: string, data: Option<map<string, Field>>)
    requires error != ""
    ensures Apply(Some(Envelope(Some(error), Some("missingApiKey"), data))) == Initial
  {
  }

  /** Any other reason shows the container; a member inherited from `Object.prototype` then
   *  throws before anything else is shown, and every remaining reason shows the unknown slot
   *  with the raw error text. */
  lemma OtherReasonShowsUnknown(error: string, reason: string, data: Option<map<string, Field>>)
    requires error != "" && reason != "" && reason != "missingApiKey"
    requires ElementNamed(reason).None?
    ensures reason in PrototypeMembers ==>
              Apply(Some(Envelope(Some(error), Some(reason), data)))
              == Page({Container}, "Mapmeter error", false)
    ensures reason !in PrototypeMembers ==>
              Apply(Some(Envelope(Some(error), Some(reason), data)))
              == Page({Container, Unknown}, error, false)
  {
  }

  // ---------------------------------------------------------------------------------------
  // Chart data shaping in drawChart
  // ---------------------------------------------------------------------------------------

  /** A JavaScript number as far as `Math.max` and `+=` go: an integer, or NaN once undefined
   *  has been involved. NaN is absorbing for both operations. */
  datatype Num = Finite(n: int) | NaN

  function JsMax(v: Option<int>, m: Num): (r: Num)
    ensures r.Finite? <==> v.Some? && m.Finite?
    ensures r.Finite? ==> r.n >= v.value && r.n >= m.n && (r.n == v.value || r.n == m.n)
  {
    if v.Some? && m.Finite? then Finite(if v.value > m.n then v.value else m.n) else NaN
  }

  function JsAdd(m: Num, v: Option<int>): (r: Num)
    ensures r.Finite? <==> v.Some? && m.Finite?
    ensures r.Finite? ==> r.n == m.n + v.value
  {
    if v.Some? && m.Finite? then Finite(m.n + v.value) else NaN
  }

  /** `Number(c)` for a one-character string: a decimal digit is its value, a white-space or
   *  line-terminator character (which converts like the empty string) is 0, anything else
   *  is NaN. */
  function CharToNumber(c: char): (r: Num)
    ensures '0' <= c <= '9' ==> r == Finite(c as int - '0' as int)
    ensures r.Finite? ==> 0 <= r.n <= 9
    ensures r.Finite? <==> '0' <= c <= '9' || c in JsWhitespace
  {
    if '0' <= c <= '9' then Finite(c as int - '0' as int)
    else if c in JsWhitespace then Finite(0)
    else NaN
  }

  /** The characters `Number` strips as white space or line terminators. */
  const JsWhitespace: set<char> :=
    {'\U{9}', '\U{A}', '\U{B}', '\U{C}', '\U{D}', '\U{20}', '\U{A0}', '\U{1680}',
     '\U{2000}', '\U{2001}', '\U{2002}', '\U{2003}', '\U{2004}', '\U{2005}', '\U{2006}', '\U{2007}',
     '\U{2008}', '\U{2009}', '\U{200A}', '\U{2028}', '\U{2029}', '\U{202F}', '\U{205F}', '\U{3000}',
     '\U{FEFF}'}

  /** A `time` value the loop can index: an array, or a string iterated by character. */
  predicate Indexable(f: Field)
  {
    f.Array? || f.Text?
  }

  /** `times.length`. */
  function TimeCount(f: Field): nat
    requires Indexable(f)
  {
    if f.Array? then |f.items| else |f.s|
  }

  /** `1000 * times[i]`: an array entry times 1000; a character is converted to a number first. */
  function StampAt(f: Field, i: nat): (r: Num)
    requires Indexable(f) && i < TimeCount(f)
    ensures f.Array? ==> r == Finite(1000 * f.items[i])
    ensures f.Text? ==> (r.Finite? <==> CharToNumber(f.s[i]).Finite?)
    ensures f.Text? && r.Finite? ==> r.n == 1000 * CharToNumber(f.s[i]).n
  {
    if f.Array? then Finite(1000 * f.items[i])
    else match CharToNumber(f.s[i])
      case Finite(n) => Finite(1000 * n)
      case NaN => NaN
  }

  /** One chart point: the (possibly undefined) request count and the date in milliseconds,
   *  NaN for an invalid date. */
  datatype Point = Point(value: Option<int>, date: Num)

  /** The shaped chart data, or the TypeError raised when `data.time` is undefined or null. */
  datatype Chart =
    | Chart(points: seq<Point>, startDate: Num, endDate: Num, maxValue: Num, sum: Num)
    | TypeError

  /** Only the array-valued fields of `data` become metrics. */
  function Metrics(data: map<string, Field>): (m: map<string, seq<int>>)
    ensures forall k :: k in m <==> k in data && data[k].Array?
    ensures forall k :: k in m ==> m[k] == data[k].items
  {
    map k | k in data && data[k].Array? :: data[k].items
  }

  /** `context.request_count` for index i: undefined when the metric is missing or too short. */
  function RequestCountAt(metrics: map<string, seq<int>>, i: nat): (v: Option<int>)
    ensures v.Some? <==> "request_count" in metrics && i < |metrics["request_count"]|
    ensures v.Some? ==> v.value == metrics["request_count"][i]
  {
    if "request_count" in metrics && i < |metrics["request_count"]|
    then Some(metrics["request_count"][i]) else None
  }

  /** The running maximum after n points, starting from 0. */
  function MaxUpTo(values: seq<Option<int>>, n: nat): Num
    requires n <= |values|
  {
    if n == 0 then Finite(0) else JsMax(values[n - 1], MaxUpTo(values, n - 1))
  }

  /** The running sum after n points, starting from 0. */
  function SumUpTo(values: seq<Option<int>>, n: nat): Num
    requires n <= |values|
  {
    if n == 0 then Finite(0) else JsAdd(SumUpTo(values, n - 1), values[n - 1])
  }

  /** The value column of the chart: one request count per time index. */
  function Column(len: nat, metrics: map<string, seq<int>>): (c: seq<Option<int>>)
    ensures |c| == len
    ensures forall i :: 0 <= i < |c| ==> c[i] == RequestCountAt(metrics, i)
  {
    seq(len, i requires 0 <= i < len => RequestCountAt(metrics, i))
  }

  /** The chart points: each time index's request count and date. */
  function PointsOf(time: Field, column: seq<Option<int>>): (p: seq<Point>)
    requires Indexable(time) && |column| == TimeCount(time)
    ensures |p| == |column|
    ensures forall i :: 0 <= i < |p| ==> p[i] == Point(column[i], StampAt(time, i))
  {
    seq(|column|, i requires 0 <= i < |column| => Point(column[i], StampAt(time, i)))
  }

  /** The shaped chart data as a function of the `data` object. */
  function ChartOf(data: map<string, Field>): Chart
  {
    if "time" !in data || data["time"].Null? then TypeError
    else if !Indexable(data["time"]) then Chart([], NaN, NaN, Finite(0), Finite(0))
    else
      var time := data["time"];
      var len := TimeCount(time);
      var column := Column(len, Metrics(data));
      Chart(PointsOf(time, column),
            if len == 0 then NaN else StampAt(time, 0),
            if len == 0 then NaN else StampAt(time, len - 1),
            MaxUpTo(column, len), SumUpTo(column, len))
  }

  /** The values loop of `drawChart`: one point per time index, with the running maximum
   *  and sum of the request counts. */
  method ShapeValues(time: Field, metrics: map<string, seq<int>>)
    returns (values: seq<Point>, maxValue: Num, sum: Num)
    requires Indexable(time)
    ensures values == PointsOf(time, Column(TimeCount(time), metrics))
    ensures maxValue == MaxUpTo(Column(TimeCount(time), metrics), TimeCount(time))
    ensures sum == SumUpTo(Column(TimeCount(time), metrics), TimeCount(time))
  {
    var len := TimeCount(time);
    ghost var column := Column(len, metrics);
    values := [];
    maxValue := Finite(0);
    sum := Finite(0);
    var i := 0;
    while i < len
      invariant 0 <= i <= len
      invariant |values| == i
      invariant forall k :: 0 <= k < i ==> values[k] == Point(column[k], StampAt(time, k))
      invariant maxValue == MaxUpTo(column, i)
      invariant sum == SumUpTo(column, i)
    {
      var value := RequestCountAt(metrics, i);
      values := values + [Point(value, StampAt(time, i))];
      maxValue := JsMax(value, maxValue);
      sum := JsAdd(sum, value);
      i := i + 1;
    }
    assert values == PointsOf(time, column);
  }

  /** The data-shaping part of `drawChart`: the guards on `time`, the dates and the values. */
  method ShapeChartData(data: map<string, Field>) returns (r: Chart)
    ensures r == ChartOf(data)
    ensures r.TypeError? <==> "time" !in data || data["time"].Null?
    ensures r.Chart? && Indexable(data["time"]) ==>
      |r.points| == TimeCount(data["time"])
      && forall i :: 0 <= i < |r.points| ==>
           r.points[i] == Point(RequestCountAt(Metrics(data), i), StampAt(data["time"], i))
  {
    if "time" !in data || data["time"].Null? {
      // `times.length` on undefined or null
      return TypeError;
    }
    var time := data["time"];
    if !Indexable(time) {
      // `times.length` is undefined, so the loop never runs and both dates are invalid
      return Chart([], NaN, NaN, Finite(0), Finite(0));
    }
    var len := TimeCount(time);
    var startDate := if len == 0 then NaN else StampAt(time, 0);
    var endDate := if len == 0 then NaN else StampAt(time, len - 1);
    var values, maxValue, sum := ShapeValues(time, Metrics(data));
    r := Chart(values, startDate, endDate, maxValue, sum);
  }

  /** A single undefined count makes the maximum NaN; otherwise it is a number. */
  lemma {:induction false} MaxNaNIffMissing(values: seq<Option<int>>, n: nat)
    requires n <= |values|
    ensures MaxUpTo(values, n).NaN? <==> exists k :: 0 <= k < n && values[k].None?
  {
    if n > 0 {
      MaxNaNIffMissing(values, n - 1);
    }
  }

  /** The maximum starts at 0 and ends at least as large as every count. */
  lemma {:induction false} MaxBoundsEveryValue(values: seq<Option<int>>, n: nat)
    requires n <= |values|
    requires MaxUpTo(values, n).Finite?
    ensures MaxUpTo(values, n).n >= 0
    ensures forall k :: 0 <= k < n ==> values[k].Some? && MaxUpTo(values, n).n >= values[k].value
  {
    if n > 0 {
      MaxBoundsEveryValue(values, n - 1);
    }
  }

  /** With all counts present and non-negative, the maximum is one of them. */
  lemma {:induction false} MaxIsAttained(values: seq<Option<int>>, n: nat)
    requires 0 < n <= |values|
    requires forall k :: 0 <= k < n ==> values[k].Some? && values[k].value >= 0
    ensures MaxUpTo(values, n).Finite?
    ensures exists k :: 0 <= k < n && MaxUpTo(values, n).n == values[k].value
  {
    if n == 1 {
      assert MaxUpTo(values, 0) == Finite(0);
      assert MaxUpTo(values, 1).n == values[0].value;
    } else {
      MaxIsAttained(values, n - 1);
      var k :| 0 <= k < n - 1 && MaxUpTo(values, n - 1).n == values[k].value;
      if MaxUpTo(values, n).n == values[n - 1].value {
      } else {
        assert MaxUpTo(values, n).n == values[k].value;
      }
    }
  }

  /** The shaped chart has one point per time entry, dates 1000 * times[i], and the domain
   *  bounds of the first and last time; the y domain tops out at the running maximum. */
  lemma ChartShape(data: map<string, Field>)
    requires "time" in data && data["time"].Array? && |data["time"].items| > 0
    ensures var c := ChartOf(data); var times := data["time"].items;
      c.Chart? && |c.points| == |times|
      && c.startDate == Finite(1000 * times[0])
      && c.endDate == Finite(1000 * times[|times| - 1])
      && (forall i :: 0 <= i < |times| ==>
            (c.points[i].date == Finite(1000 * times[i])
             && c.points[i].value == RequestCountAt(Metrics(data), i)))
  {
  }

  /** A missing or null `time` makes `times.length` throw before anything is shaped. */
  lemma UnindexedTimeThrows(data: map<string, Field>)
    requires "time" !in data || data["time"].Null?
    ensures ChartOf(data) == TypeError
  {
  }

  /** A string `time` is iterated character by character: one point per character, a digit
   *  giving its value in seconds and any other non-blank character an invalid date. */
  lemma TextTimeIsIteratedByCharacter(data: map<string, Field>)
    requires "time" in data && data["time"].Text?
    ensures var c := ChartOf(data); var text := data["time"].s;
      c.Chart? && |c.points| == |text|
      && (forall i :: 0 <= i < |text| && '0' <= text[i] <= '9' ==>
            c.points[i].date == Finite(1000 * (text[i] as int - '0' as int)))
      && (forall i :: 0 <= i < |text| && !('0' <= text[i] <= '9') && text[i] !in JsWhitespace
            ==> c.points[i].date.NaN?)
      && (|text| == 0 ==> c.startDate.NaN? && c.endDate.NaN?)
  {
  }

  /** A missing `request_count` metric is not defaulted to 0: every point value is undefined
   *  and the maximum is NaN. */
  lemma {:induction false} MissingCountIsNotDefaulted(data: map<string, Field>)
    requires "time" in data && data["time"].Array? && |data["time"].items| > 0
    requires "request_count" !in data
    ensures var c := ChartOf(data);
      c.Chart? && c.maxValue.NaN? && forall i :: 0 <= i < |c.points| ==> c.points[i].value.None?
  {
    var times := data["time"].items;
    var column := Column(|times|, Metrics(data));
    assert column[0].None?;
    MaxNaNIffMissing(column, |times|);
  }
}
