/** The event normaliser: every native input event becomes one canonical
    record whose payload field set is fixed by the event's kind. */
module Events {
  import opened Wrappers

  /** A key or mouse button, carried as its debug-formatted identifier. */
  datatype Key = Key(debug: string)
  datatype Button = Button(debug: string)

  /** A 64-bit float, carried bit for bit and only ever copied. */
  datatype F64 = F64(bits: bv64)

  /** A timestamp of the platform clock, only ever copied. */
  datatype SystemTime = SystemTime(ticks: int)

  /** The six native event shapes; wheel deltas are whole numbers. */
  datatype EventType =
    | KeyPress(key: Key)
    | KeyRelease(key: Key)
    | MouseMove(x: F64, y: F64)
    | ButtonPress(button: Button)
    | ButtonRelease(button: Button)
    | Wheel(deltaX: int, deltaY: int)

  /** A native event as the hook delivers it. */
  datatype Event = Event(time: SystemTime, name: Option<string>, eventType: EventType)

  /** A payload value: a formatted identifier, a float or an integer. */
  datatype Value = Text(text: string) | Float(float: F64) | Integer(integer: int)

  /** The canonical record; `data` maps payload field names to values. */
  datatype RdevEvent = RdevEvent(eventType: string, name: Option<string>, time: SystemTime, data: map<string, Value>)

  /** The variant name of each native event shape. */
  function KindName(t: EventType): string {
    match t
    case KeyPress(_) => "KeyPress"
    case KeyRelease(_) => "KeyRelease"
    case MouseMove(_, _) => "MouseMove"
    case ButtonPress(_) => "ButtonPress"
    case ButtonRelease(_) => "ButtonRelease"
    case Wheel(_, _) => "Wheel"
  }

  /** The payload field set that belongs to each event-type label. */
  function Schema(eventType: string): set<string> {
    if eventType in {"KeyPress", "KeyRelease", "ButtonPress", "ButtonRelease"} then {"key"}
    else if eventType == "MouseMove" then {"x", "y"}
    else if eventType == "Wheel" then {"delta_x", "delta_y"}
    else {}
  }

  /** Reads a canonical record back into the native event it stands for, or
      None when its label is unknown or its payload does not fit the label. */
  function Decode(r: RdevEvent): (e: Option<Event>)
    ensures e.Some? ==> r.data.Keys == Schema(r.eventType)
  {
    var d := r.data;
    var t :=
      if d.Keys != Schema(r.eventType) then None
      else if r.eventType == "KeyPress" && d["key"].Text? then Some(KeyPress(Key(d["key"].text)))
      else if r.eventType == "KeyRelease" && d["key"].Text? then Some(KeyRelease(Key(d["key"].text)))
      else if r.eventType == "ButtonPress" && d["key"].Text? then Some(ButtonPress(Button(d["key"].text)))
      else if r.eventType == "ButtonRelease" && d["key"].Text? then Some(ButtonRelease(Button(d["key"].text)))
      else if r.eventType == "MouseMove" && d["x"].Float? && d["y"].Float? then
        Some(MouseMove(d["x"].float, d["y"].float))
      else if r.eventType == "Wheel" && d["delta_x"].Integer? && d["delta_y"].Integer? then
        Some(Wheel(d["delta_x"].integer, d["delta_y"].integer))
      else None;
    if t.Some? then Some(Event(r.time, r.name, t.value)) else None
  }

  /** Normalises one native event: the label is the variant's name, `name` and
      `time` are copied, the payload carries exactly the variant's fields, and
      nothing is lost, since decoding the record gives the event back. */
  function DealEventToJson(event: Event): (r: RdevEvent)
    ensures r.eventType == KindName(event.eventType)
    ensures r.name == event.name && r.time == event.time
    ensures r.data.Keys == Schema(r.eventType)
    ensures Decode(r) == Some(event)
  {
    match event.eventType
    case KeyPress(key) =>
      RdevEvent("KeyPress", event.name, event.time, map["key" := Text(key.debug)])
    case KeyRelease(key) =>
      RdevEvent("KeyRelease", event.name, event.time, map["key" := Text(key.debug)])
    case MouseMove(x, y) =>
      RdevEvent("MouseMove", event.name, event.time, map["x" := Float(x), "y" := Float(y)])
    case ButtonPress(button) =>
      RdevEvent("ButtonPress", event.name, event.time, map["key" := Text(button.debug)])
    case ButtonRelease(button) =>
      RdevEvent("ButtonRelease", event.name, event.time, map["key" := Text(button.debug)])
    case Wheel(dx, dy) =>
      RdevEvent("Wheel", event.name, event.time, map["delta_x" := Integer(dx), "delta_y" := Integer(dy)])
  }

  /** The other half of the round trip: every record the decoder accepts is
      exactly the normalisation of the event it decodes to. */
  lemma DecodeThenNormalise(r: RdevEvent, e: Event)
    requires Decode(r) == Some(e)
    ensures DealEventToJson(e) == r
  {
  }
}
