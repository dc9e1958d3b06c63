/** The settings store of src/modules/plotter_settings.py: a dictionary
    from names to loosely typed values, started from the defaults, and the
    G-code snippets built from it. Loading and saving the JSON file are not
    modelled; the constructor takes the dictionary the file held. */
module Settings {
  import opened Text

  /** A JSON-like setting value; `NoneVal` is Python's `None`. */
  datatype Value = IntVal(i: int) | RealVal(r: real) | StrVal(s: string) | BoolVal(b: bool) | NoneVal

  /** `DEFAULT_SETTINGS`. */
  const DefaultSettings: map<string, Value> := map[
    "machine_width" := RealVal(1219.2),
    "machine_height" := RealVal(1524.0),
    "limit_left" := RealVal(-420.5),
    "limit_right" := RealVal(420.5),
    "limit_top" := RealVal(594.5),
    "limit_bottom" := RealVal(-594.5),
    "steps_per_unit" := RealVal(80.0),
    "pen_angle_up" := IntVal(90),
    "pen_angle_down" := IntVal(40),
    "pen_angle_up_time" := IntVal(250),
    "pen_angle_down_time" := IntVal(150),
    "feed_rate_travel" := IntVal(1000),
    "feed_rate_draw" := IntVal(500),
    "max_acceleration" := IntVal(100),
    "min_acceleration" := IntVal(0),
    "pen_diameter" := RealVal(0.8),
    "pen_kerf" := RealVal(0.45),
    "block_buffer_size" := IntVal(16),
    "segments_per_second" := IntVal(5),
    "min_segment_length" := RealVal(0.5),
    "home_x" := IntVal(0),
    "home_y" := IntVal(0),
    "start_gcode" := StrVal(""),
    "end_gcode" := StrVal("M280 P0 S90 T250\nG0 X0 Y0 F3000"),
    "find_home_gcode" := StrVal("G28 X Y"),
    "pen_up_gcode" := StrVal("M280 P0 S{angle} T{time}"),
    "pen_down_gcode" := StrVal("M280 P0 S{angle} T{time}"),
    "baud_rate" := IntVal(57600)
  ]

  /** `dict.get(key, default)`. */
  function Lookup(m: map<string, Value>, key: string, default: Value): (v: Value)
    ensures key in m ==> v == m[key]
    ensures key !in m ==> v == default
  {
    if key in m then m[key] else default
  }

  /** Python's truth value of a setting. */
  predicate Truthy(v: Value) {
    match v
    case IntVal(i) => i != 0
    case RealVal(r) => r != 0.0
    case StrVal(s) => s != []
    case BoolVal(b) => b
    case NoneVal => false
  }

  /** `str(v)` / `f"{v}"`; `repr` renders a float, which is not modelled
      digit by digit. */
  function Render(v: Value, repr: real -> string): string {
    match v
    case IntVal(i) => IntToString(i)
    case RealVal(r) => repr(r)
    case StrVal(s) => s
    case BoolVal(b) => if b then "True" else "False"
    case NoneVal => "None"
  }

  /** A number as Python sees it: ints and bools are integers. */
  datatype Number = Int(i: int) | Float(r: real)

  function AsNumber(v: Value): Option<Number> {
    match v
    case IntVal(i) => Some(Int(i))
    case BoolVal(b) => Some(Int(if b then 1 else 0))
    case RealVal(r) => Some(Float(r))
    case _ => None
  }

  function ToReal(n: Number): real {
    match n
    case Int(i) => i as real
    case Float(r) => r
  }

  /** `d` is a number whose value is `a - b`. */
  predicate IsDifference(d: Value, a: Value, b: Value) {
    && AsNumber(d).Some? && AsNumber(a).Some? && AsNumber(b).Some?
    && ToReal(AsNumber(d).value) == ToReal(AsNumber(a).value) - ToReal(AsNumber(b).value)
  }

  /** `a - b`: an integer when both are integers, a float otherwise, and
      a TypeError for anything that is not a number. */
  function Minus(a: Value, b: Value): (r: Result<Value>)
    ensures r.Ok? <==> AsNumber(a).Some? && AsNumber(b).Some?
    ensures r.Ok? ==> IsDifference(r.value, a, b)
  {
    match (AsNumber(a), AsNumber(b))
    case (Some(Int(x)), Some(Int(y))) => Ok(IntVal(x - y))
    case (Some(x), Some(y)) => Ok(RealVal(ToReal(x) - ToReal(y)))
    case _ => Err("TypeError: unsupported operand type(s) for -")
  }

  datatype WorkArea = WorkArea(left: Value, right: Value, top: Value, bottom: Value, width: Value, height: Value)

  /** `get_work_area`: the four limits and the two extents. */
  function GetWorkArea(m: map<string, Value>): (r: Result<WorkArea>)
    ensures r.Ok? ==>
      && r.value.left == Lookup(m, "limit_left", NoneVal) && r.value.right == Lookup(m, "limit_right", NoneVal)
      && r.value.top == Lookup(m, "limit_top", NoneVal) && r.value.bottom == Lookup(m, "limit_bottom", NoneVal)
      && IsDifference(r.value.width, r.value.right, r.value.left)
      && IsDifference(r.value.height, r.value.top, r.value.bottom)
    ensures r.Err? <==>
      || AsNumber(Lookup(m, "limit_left", NoneVal)).None? || AsNumber(Lookup(m, "limit_right", NoneVal)).None?
      || AsNumber(Lookup(m, "limit_top", NoneVal)).None? || AsNumber(Lookup(m, "limit_bottom", NoneVal)).None?
  {
    var left, right := Lookup(m, "limit_left", NoneVal), Lookup(m, "limit_right", NoneVal);
    var top, bottom := Lookup(m, "limit_top", NoneVal), Lookup(m, "limit_bottom", NoneVal);
    match (Minus(right, left), Minus(top, bottom))
    case (Ok(w), Ok(h)) => Ok(WorkArea(left, right, top, bottom, w, h))
    case (Err(e), _) => Err(e)
    case (_, Err(e)) => Err(e)
  }

  /** With the defaults the work area is an A0 sheet centred on the origin. */
  lemma DefaultWorkArea()
    ensures GetWorkArea(DefaultSettings) ==
      Ok(WorkArea(RealVal(-420.5), RealVal(420.5), RealVal(594.5), RealVal(-594.5), RealVal(841.0), RealVal(1189.0)))
  {
    assert Lookup(DefaultSettings, "limit_left", NoneVal) == RealVal(-420.5);
    assert Lookup(DefaultSettings, "limit_right", NoneVal) == RealVal(420.5);
    assert Lookup(DefaultSettings, "limit_top", NoneVal) == RealVal(594.5);
    assert Lookup(DefaultSettings, "limit_bottom", NoneVal) == RealVal(-594.5);
  }

  /** `get_pen_up_command`. */
  function PenUpCommand(m: map<string, Value>, repr: real -> string): string {
    "G0 Z" + Render(Lookup(m, "pen_angle_up", NoneVal), repr) + " F1000"
  }

  /** `get_pen_down_command`. */
  function PenDownCommand(m: map<string, Value>, repr: real -> string): string {
    "G0 Z" + Render(Lookup(m, "pen_angle_down", NoneVal), repr) + " F1000"
  }

  /** `get_goto_command(x, y, pen_down)`; `fixed3` is the `:.3f` format. */
  function GotoCommand(m: map<string, Value>, x: real, y: real, penDown: bool,
                       fixed3: real -> string, repr: real -> string): (r: string)
    ensures StartsWith(r, "G1 X") <==> penDown
    ensures StartsWith(r, "G0 X") <==> !penDown
  {
    var feed := Lookup(m, if penDown then "feed_rate_draw" else "feed_rate_travel", NoneVal);
    var r := "G" + (if penDown then "1" else "0") + " X" + fixed3(x) + " Y" + fixed3(y) + " F" + Render(feed, repr);
    assert r[..4] == "G" + (if penDown then "1" else "0") + " X";
    assert r[1] == if penDown then '1' else '0';
    r
  }

  /** With the defaults the pen goes to 90 degrees up and 40 down, drawing
      moves use feed 500 and travel moves feed 1000. */
  lemma DefaultCommands(x: real, y: real, fixed3: real -> string, repr: real -> string)
    ensures PenUpCommand(DefaultSettings, repr) == "G0 Z90 F1000"
    ensures PenDownCommand(DefaultSettings, repr) == "G0 Z40 F1000"
    ensures GotoCommand(DefaultSettings, x, y, true, fixed3, repr) == "G1 X" + fixed3(x) + " Y" + fixed3(y) + " F500"
    ensures GotoCommand(DefaultSettings, x, y, false, fixed3, repr) == "G0 X" + fixed3(x) + " Y" + fixed3(y) + " F1000"
  {
    DefaultPenAngles(repr);
    DefaultFeeds(x, y, fixed3, repr);
  }

  lemma DefaultPenAngles(repr: real -> string)
    ensures PenUpCommand(DefaultSettings, repr) == "G0 Z90 F1000"
    ensures PenDownCommand(DefaultSettings, repr) == "G0 Z40 F1000"
  {
    assert Lookup(DefaultSettings, "pen_angle_up", NoneVal) == IntVal(90);
    assert Lookup(DefaultSettings, "pen_angle_down", NoneVal) == IntVal(40);
    assert IntToString(90) == "90";
    assert IntToString(40) == "40";
  }

  lemma DefaultFeeds(x: real, y: real, fixed3: real -> string, repr: real -> string)
    ensures GotoCommand(DefaultSettings, x, y, true, fixed3, repr) == "G1 X" + fixed3(x) + " Y" + fixed3(y) + " F500"
    ensures GotoCommand(DefaultSettings, x, y, false, fixed3, repr) == "G0 X" + fixed3(x) + " Y" + fixed3(y) + " F1000"
  {
    assert Lookup(DefaultSettings, "feed_rate_draw", NoneVal) == IntVal(500);
    assert Lookup(DefaultSettings, "feed_rate_travel", NoneVal) == IntVal(1000);
    assert IntToString(500) == "500";
    assert IntToString(1000) == "1000";
  }

  /** `set(k, v)` then `get(k)` gives `v`; every other key reads as before. */
  lemma StoreThenLookup(m: map<string, Value>, key: string, value: Value, other: string, default: Value)
    ensures Lookup(m[key := value], key, default) == value
    ensures other != key ==> Lookup(m[key := value], other, default) == Lookup(m, other, default)
  {
  }

  /** `update(data)` overwrites exactly the keys of `data`. */
  lemma UpdateOverwrites(m: map<string, Value>, data: map<string, Value>, key: string, default: Value)
    ensures (m + data).Keys == m.Keys + data.Keys
    ensures Lookup(m + data, key, default) == if key in data then data[key] else Lookup(m, key, default)
  {
  }

  class PlotterSettings {
    var settings: map<string, Value>

    /** Start from a copy of the defaults, then merge what the settings
        file held (`loaded`, empty when there is no readable file). */
    constructor (loaded: map<string, Value>)
      ensures settings == DefaultSettings + loaded
    {
      settings := DefaultSettings + loaded;
    }

    method Get(key: string, default: Value) returns (v: Value)
      ensures v == Lookup(settings, key, default)
    {
      if key in settings {
        v := settings[key];
      } else {
        v := default;
      }
    }

    method Set(key: string, value: Value)
      modifies this
      ensures settings == old(settings)[key := value]
    {
      settings := settings[key := value];
    }

    /** `get_all`: the dictionary as a value, so later changes to the
        settings do not show through it. */
    method GetAll() returns (all: map<string, Value>)
      ensures all == settings
    {
      all := settings;
    }

    method Update(data: map<string, Value>)
      modifies this
      ensures settings == old(settings) + data
    {
      settings := settings + data;
    }
  }
}
