/** Registering a plugin in an authored configuration and removing it again (cmd/kata/agent_hooks_plugins.go). */
module PluginConfig {
  import opened Jsonc
  import opened JsonMachine
  import opened Options

  const NAME := "plugins"
  const NAME_TOKEN := "\"plugins\""

  // ---------------------------------------------------------------------
  // Finding the property and its items
  // ---------------------------------------------------------------------

  /** A string token of `size` bytes was just read; `rest` follows it. */
  datatype Cut = Cut(size: nat, state: State, rest: string)

  datatype Place = Place(state: State, rest: string)

  function Pending(s: State): nat {
    if s.Quote? then |s.raw| else 0
  }

  /** The closing quote of a string that stands for `value`. */
  predicate EndsToken(lib: Library, s: State, c: char, value: string) {
    s.Quote? && !s.escaped && c == '"' && lib.decode(s.raw + [c]) == Some(value)
  }

  /** The key "plugins" of the root object. */
  function KeyAt(lib: Library, s: State, t: string): (r: Option<Cut>)
    ensures r.Some? ==> |r.value.rest| + r.value.size <= |t| + Pending(s)
    decreases |t|
  {
    if t == "" || s == Fail then None
    else if EndsToken(lib, s, t[0], NAME) && s.isKey && s.k.Push? && s.k.below == Bottom then
      Some(Cut(|s.raw| + 1, Step(lib, s, t[0]), t[1..]))
    else KeyAt(lib, Step(lib, s, t[0]), t[1..])
  }

  /** Past the colon and white space before a value. */
  function ValueAt(lib: Library, s: State, t: string): (r: Place)
    ensures |r.rest| <= |t|
    decreases |t|
  {
    if t != "" && (t[0] == ':' || White(t[0])) then ValueAt(lib, Step(lib, s, t[0]), t[1..]) else Place(s, t)
  }

  /** The end of a value of the container `k`. */
  function ValueEnd(lib: Library, s: State, t: string, k: Stack): (r: Place)
    ensures |r.rest| <= |t|
    decreases |t|
  {
    if t == "" || s == Want(k, After) then Place(s, t)
    else if s.Bare? && s.k == k && (White(t[0]) || t[0] == ',' || t[0] == ']' || t[0] == '}') then Place(s, t)
    else ValueEnd(lib, Step(lib, s, t[0]), t[1..], k)
  }

  /** The first item equal to the registration in an array of `k`. */
  function ItemAt(lib: Library, s: State, t: string, k: Stack, registration: string): (r: Option<Cut>)
    ensures r.Some? ==> |r.value.rest| + r.value.size <= |t| + Pending(s)
    decreases |t|
  {
    if t == "" || s == Fail || s == Want(k, After) then None
    else if EndsToken(lib, s, t[0], registration) && !s.isKey && s.k == Push(InArray, k) then
      Some(Cut(|s.raw| + 1, Step(lib, s, t[0]), t[1..]))
    else ItemAt(lib, Step(lib, s, t[0]), t[1..], k, registration)
  }

  /** Behind the brace that opens the root object. */
  function AfterBrace(n: string): (r: Option<string>)
    ensures r.Some? ==> |r.value| < |n|
  {
    if n == "" then None
    else if White(n[0]) then AfterBrace(n[1..])
    else if n[0] == '{' then Some(n[1..])
    else None
  }

  const ROOT := Push(InObject({}), Bottom)
  const OPEN := Want(ROOT, FirstKey)

  /** The normalized text of a configuration, if it is an object. */
  function Parse(lib: Library, data: string): (r: Option<string>)
    ensures r.Some? ==> Normal(data) == r && AfterBrace(r.value).Some?
  {
    match Normal(data)
    case None => None
    case Some(n) => if Valid(lib, n) && AfterBrace(n).Some? then Some(n) else None
  }

  /** A property of the root object: its key was just read, its value
      begins, and its value has ended. */
  datatype Property = Property(key: Cut, value: Place, end: Place)

  /** The property is part of a text of `n` bytes. */
  predicate Fits(p: Property, n: nat) {
    |p.key.rest| + p.key.size <= n && |p.end.rest| <= |p.value.rest| <= |p.key.rest|
  }

  function Start(p: Property, n: nat): nat
    requires Fits(p, n)
  {
    n - |p.key.rest| - p.key.size
  }

  function ValueStart(p: Property, n: nat): nat
    requires Fits(p, n)
  {
    n - |p.value.rest|
  }

  function End(p: Property, n: nat): nat
    requires Fits(p, n)
  {
    n - |p.end.rest|
  }

  function StackOf(s: State): Stack {
    if s == Fail then Bottom else s.k
  }

  function Find(lib: Library, n: string): (r: Option<Property>)
    requires AfterBrace(n).Some?
    ensures r.Some? ==> Fits(r.value, |n|)
  {
    match KeyAt(lib, OPEN, AfterBrace(n).value)
    case None => None
    case Some(key) =>
      var value := ValueAt(lib, key.state, key.rest);
      Some(Property(key, value, ValueEnd(lib, value.state, value.rest, StackOf(value.state))))
  }

  // ---------------------------------------------------------------------
  // Editing
  // ---------------------------------------------------------------------

  function Splice(data: string, start: nat, end: nat, insert: string): string
    requires start <= end <= |data|
  {
    data[..start] + insert + data[end..]
  }

  function Right(n: string, i: nat, limit: nat): (r: nat)
    requires i <= limit <= |n|
    ensures i <= r <= limit && (r < limit ==> !White(n[r]))
    decreases limit - i
  {
    if i < limit && White(n[i]) then Right(n, i + 1, limit) else i
  }

  function Left(n: string, i: int, floor: int): (r: int)
    requires -1 <= floor <= i < |n|
    ensures floor <= r <= i
    decreases i - floor
  {
    if i > floor && White(n[i]) then Left(n, i - 1, floor) else i
  }

  datatype Range = Range(start: nat, end: nat)

  /** What goes with a removed item: the comma after it, or else the one
      before it. */
  function Widen(n: string, data: string, start: nat, end: nat, floor: int, limit: nat): (r: Range)
    requires |n| == |data| && -1 <= floor < start <= end <= limit <= |n|
    ensures r.start <= start <= end <= r.end <= |data|
  {
    var right := Right(n, end, limit);
    if right < limit && data[right] == ',' then Range(start, right + 1)
    else
      var left := Left(n, start - 1, floor);
      if left >= 0 && data[left] == ',' then Range(left, end) else Range(start, end)
  }

  /** The two loops of the removal. */
  method WidenRange(n: string, data: string, start: nat, end: nat, floor: int, limit: nat) returns (r: Range)
    requires |n| == |data| && -1 <= floor < start <= end <= limit <= |n|
    ensures r == Widen(n, data, start, end, floor, limit)
  {
    var right := end;
    while right < limit && White(n[right])
      invariant end <= right <= limit && Right(n, right, limit) == Right(n, end, limit)
    {
      right := right + 1;
    }
    if right < limit && data[right] == ',' {
      return Range(start, right + 1);
    }
    var left := start - 1;
    while left > floor && White(n[left])
      invariant floor <= left < start && Left(n, left, floor) == Left(n, start - 1, floor)
    {
      left := left - 1;
    }
    return if left >= 0 && data[left] == ',' then Range(left, end) else Range(start, end);
  }

  datatype Edit = Refused | Edited(bytes: string, present: bool, created: bool)

  function Separator(follows: bool): string {
    if follows then "," else ""
  }

  /** editPluginAgentHookConfig; `encoded` is the registration as JSON. */
  function EditOf(lib: Library, authored: string, registration: string, encoded: string, add: bool,
      remove: bool): Edit
  {
    if authored == "" && !add then Edited("", false, false)
    else
      var data := if authored == "" then "{}\n" else authored;
      match Parse(lib, data)
      case None => Refused
      case Some(n) =>
        match Find(lib, n)
        case None =>
          if !add then Edited(data, false, false)
          else
            var body := AfterBrace(n).value;
            var at := |n| - |body|;
            Edited(Splice(data, at, at, NAME_TOKEN + ":[" + encoded + "]" + Separator(!Closes(body))), false, true)
        case Some(p) =>
          if p.value.rest == "" || p.value.rest[0] != '[' then Refused
          else EditItems(lib, data, n, p, registration, encoded, add, remove)
  }

  function EditItems(lib: Library, data: string, n: string, p: Property, registration: string, encoded: string,
      add: bool, remove: bool): Edit
    requires |n| == |data| && Fits(p, |n|) && p.value.rest != ""
  {
    var k := StackOf(p.value.state);
    var items := p.value.rest[1..];
    match ItemAt(lib, Want(Push(InArray, k), FirstItem), items, k, registration)
    case Some(item) =>
      if !remove then Edited(data, true, false)
      else
        var end := |n| - |item.rest|;
        var r := Widen(n, data, end - item.size, end, ValueStart(p, |n|), Most(end, End(p, |n|)));
        Edited(Splice(data, r.start, r.end, ""), true, false)
    case None =>
      if !add then Edited(data, false, false)
      else
        var at := ValueStart(p, |n|) + 1;
        Edited(Splice(data, at, at, encoded + Separator(!Closes(items))), false, false)
  }

  function Most(a: nat, b: nat): nat {
    if a < b then b else a
  }

  /** removeEmptyPluginAgentHookProperty. */
  function RemoveEmptyOf(lib: Library, data: string): Edit {
    match Parse(lib, data)
    case None => Refused
    case Some(n) =>
      match Find(lib, n)
      case None => Edited(data, false, false)
      case Some(p) =>
        if !NoItems(p.value.rest) then Edited(data, true, false)
        else
          var r := Widen(n, data, Start(p, |n|), End(p, |n|), -1, |n|);
          Edited(Splice(data, r.start, r.end, ""), true, false)
  }

  /** An empty array, or null, which decodes into no items as well. */
  predicate NoItems(value: string) {
    value != "" && (value[0] == 'n' || (value[0] == '[' && Closes(value[1..])))
  }

  // ---------------------------------------------------------------------
  // The same as loops over offsets
  // ---------------------------------------------------------------------

  lemma Rest(n: string, i: nat)
    requires i < |n|
    ensures n[i..] != "" && n[i..][0] == n[i] && n[i..][1..] == n[i + 1..]
  {
  }

  /** bytes.IndexByte for the brace of the root object. */
  method IndexBrace(n: string) returns (at: nat)
    requires AfterBrace(n).Some?
    ensures at < |n| && n[at] == '{' && AfterBrace(n) == Some(n[at + 1..])
  {
    at := 0;
    assert n[0..] == n;
    while n[at] != '{'
      invariant at < |n| && AfterBrace(n[at..]) == AfterBrace(n)
      decreases |n| - at
    {
      Rest(n, at);
      at := at + 1;
    }
    Rest(n, at);
  }

  /** Decoding the root object up to the key "plugins". */
  method DecodeToKey(lib: Library, n: string, from: nat) returns (r: Option<Cut>)
    requires from <= |n|
    ensures r == KeyAt(lib, OPEN, n[from..])
  {
    var s, i := OPEN, from;
    while i < |n| && s != Fail
      invariant from <= i <= |n| && KeyAt(lib, s, n[i..]) == KeyAt(lib, OPEN, n[from..])
    {
      Rest(n, i);
      if EndsToken(lib, s, n[i], NAME) && s.isKey && s.k.Push? && s.k.below == Bottom {
        return Some(Cut(|s.raw| + 1, Step(lib, s, n[i]), n[i + 1..]));
      }
      s, i := Step(lib, s, n[i]), i + 1;
    }
    assert i == |n| ==> n[i..] == "";
    return None;
  }

  /** Decoding the items of an array up to the registration. */
  method DecodeToItem(lib: Library, items: string, k: Stack, registration: string) returns (r: Option<Cut>)
    ensures r == ItemAt(lib, Want(Push(InArray, k), FirstItem), items, k, registration)
  {
    var s, i := Want(Push(InArray, k), FirstItem), 0;
    assert items[0..] == items;
    while i < |items| && s != Fail && s != Want(k, After)
      invariant i <= |items|
      invariant ItemAt(lib, s, items[i..], k, registration)
        == ItemAt(lib, Want(Push(InArray, k), FirstItem), items, k, registration)
    {
      Rest(items, i);
      if EndsToken(lib, s, items[i], registration) && !s.isKey && s.k == Push(InArray, k) {
        return Some(Cut(|s.raw| + 1, Step(lib, s, items[i]), items[i + 1..]));
      }
      s, i := Step(lib, s, items[i]), i + 1;
    }
    assert i == |items| ==> items[i..] == "";
    return None;
  }

  /** pluginAgentHookProperties, as far as the property "plugins" goes. */
  method PluginsProperty(lib: Library, n: string) returns (r: Option<Property>)
    requires AfterBrace(n).Some?
    ensures r == Find(lib, n)
  {
    hide KeyAt, AfterBrace, Step;
    var at := IndexBrace(n);
    var key := DecodeToKey(lib, n, at + 1);
    if key == None {
      return None;
    }
    var value := ValueAt(lib, key.value.state, key.value.rest);
    return Some(Property(key.value, value, ValueEnd(lib, value.state, value.rest, StackOf(value.state))));
  }

  /** Reading one text to its end. */
  method Decode(lib: Library, n: string) returns (valid: bool)
    ensures valid == Valid(lib, n)
  {
    var s := START;
    assert n[0..] == n;
    for i := 0 to |n|
      invariant Run(lib, s, n[i..]) == Run(lib, START, n)
    {
      Rest(n, i);
      s := Step(lib, s, n[i]);
    }
    return Accepts(lib, s);
  }

  method ParseConfig(lib: Library, data: string) returns (r: Option<string>)
    ensures r == Parse(lib, data)
  {
    hide Normal, Run, AfterBrace;
    var n := NormalText(data);
    if n == None {
      return None;
    }
    var valid := Decode(lib, n.value);
    return if valid && AfterBrace(n.value).Some? then n else None;
  }

  method EditPluginAgentHookConfig(lib: Library, authored: string, registration: string, encoded: string, add: bool,
      remove: bool)
    returns (edit: Edit)
    ensures edit == EditOf(lib, authored, registration, encoded, add, remove)
  {
    hide Find, AfterBrace, Parse, Splice, Closes, ItemAt, Widen, Step;
    if authored == "" && !add {
      return Edited("", false, false);
    }
    var data := if authored == "" then "{}\n" else authored;
    var parsed := ParseConfig(lib, data);
    if parsed == None {
      return Refused;
    }
    var n := parsed.value;
    var property := PluginsProperty(lib, n);
    if property == None {
      if !add {
        return Edited(data, false, false);
      }
      var at := IndexBrace(n);
      var insert := NAME_TOKEN + ":[" + encoded + "]" + Separator(!Closes(n[at + 1..]));
      return Edited(Splice(data, at + 1, at + 1, insert), false, true);
    }
    var p := property.value;
    if p.value.rest == "" || p.value.rest[0] != '[' {
      return Refused;
    }
    var item := DecodeToItem(lib, p.value.rest[1..], StackOf(p.value.state), registration);
    if item.Some? {
      if !remove {
        return Edited(data, true, false);
      }
      var end := |n| - |item.value.rest|;
      var r := WidenRange(n, data, end - item.value.size, end, ValueStart(p, |n|), Most(end, End(p, |n|)));
      return Edited(Splice(data, r.start, r.end, ""), true, false);
    }
    if !add {
      return Edited(data, false, false);
    }
    var at := ValueStart(p, |n|) + 1;
    return Edited(Splice(data, at, at, encoded + Separator(!Closes(p.value.rest[1..]))), false, false);
  }

  method RemoveEmptyPluginAgentHookProperty(lib: Library, data: string) returns (edit: Edit)
    ensures edit == RemoveEmptyOf(lib, data)
  {
    hide Find, AfterBrace, Parse, Splice, Widen, Step, NoItems;
    var parsed := ParseConfig(lib, data);
    if parsed == None {
      return Refused;
    }
    var n := parsed.value;
    var property := PluginsProperty(lib, n);
    if property == None {
      return Edited(data, false, false);
    }
    var p := property.value;
    if !NoItems(p.value.rest) {
      return Edited(data, true, false);
    }
    var r := WidenRange(n, data, Start(p, |n|), End(p, |n|), -1, |n|);
    return Edited(Splice(data, r.start, r.end, ""), true, false);
  }
}
