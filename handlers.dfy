/** The five handlers of handlers.go: the structured (JSON) handler with its
    suppression rule, the text, shell and minimal-shell line writers, and
    the discard handler; plus the closed Handler interface over them. */
module Handlers {
  import opened Wrappers
  import opened Levels
  import opened Data
  import opened Formats

  /** An io.Writer destination: the text it has received so far, and the
      error each write returns (None for a working destination). A failing
      write writes nothing. */
  class Writer {
    var written: string
    const failure: Option<Error>

    constructor (failure: Option<Error>)
      ensures written == [] && this.failure == failure
    {
      written := [];
      this.failure := failure;
    }

    method Write(s: string) returns (err: Option<Error>)
      modifies this
      ensures err == failure
      ensures written == if failure == None then old(written) + s else old(written)
    {
      err := failure;
      if failure == None {
        written := written + s;
      }
    }
  }

  /** The structured record of one entry, with its JSON fields: `level` as
      the level's wire text, `message`, `data` (absent when empty, the
      `omitempty` tag) and `time`. */
  datatype Record = Record(level: string, message: string, data: Option<M>, time: Instant)

  /** The record json.Encoder.Encode writes for an entry. */
  function ToRecord(e: Entry): (r: Record)
    ensures r.data == None <==> e.data == map[]
    ensures r.level == "\"" + String(e.level) + "\""
  {
    Record(MarshalJSON(e.level).0, e.message,
           if e.data == map[] then None else Some(e.data), e.time)
  }

  /** Decoding a record into a fresh Entry (json.Decoder.Decode): fails
      when the level is invalid. The receiver handed to UnmarshalJSON does
      not matter, since a failed decode yields no entry at all. */
  function FromRecord(r: Record): (e: Option<Entry>)
    ensures e != None <==> ToUpper(Trim(r.level)) in {"DBG", "INF", "WRN", "ERR"}
    ensures e != None ==> String(e.value.level) == ToUpper(Trim(r.level))
    ensures e != None ==> e.value.message == r.message && e.value.time == r.time
    ensures e != None ==> e.value.data == (if r.data == None then map[] else r.data.value)
  {
    var (level, err) := UnmarshalJSON(DBG, r.level);
    if err != None then None
    else Some(Entry(level, r.message, if r.data == None then map[] else r.data.value, r.time))
  }

  /** Every record the structured handler writes decodes back to its entry. */
  lemma RecordRoundTrip(e: Entry)
    ensures FromRecord(ToRecord(e)) == Some(e)
  {
    RoundTrip(DBG, e.level);
  }

  /** A json.Encoder bound to a destination, modelled by the records it has
      written and the error each Encode returns (None when it works). */
  class Encoder {
    var records: seq<Record>
    const failure: Option<Error>

    constructor (failure: Option<Error>)
      ensures records == [] && this.failure == failure
    {
      records := [];
      this.failure := failure;
    }

    method Encode(e: Entry) returns (err: Option<Error>)
      modifies this
      ensures err == failure
      ensures records == if failure == None then old(records) + [ToRecord(e)] else old(records)
    {
      err := failure;
      if failure == None {
        records := records + [ToRecord(e)];
      }
    }
  }

  /** The structured handler's suppression rule: INF is always dropped, DBG
      is dropped unless debug is on, WRN and ERR are never dropped. */
  function Suppressed(l: Level, debug: bool): (r: bool)
    ensures l == INF ==> r
    ensures l == DBG ==> (r <==> !debug)
    ensures l == WRN || l == ERR ==> !r
  {
    l == INF || (l == DBG && !debug)
  }

  /** defaultHandler: writes one structured record per entry it keeps. */
  class DefaultHandler {
    const enc: Encoder
    const debug: bool

    constructor (enc: Encoder, debug: bool)
      ensures this.enc == enc && this.debug == debug
    {
      this.enc := enc;
      this.debug := debug;
    }

    /** Suppressed entries write nothing and succeed; any other entry is
        encoded as exactly one record, and the encoder's error is returned. */
    method Log(e: Entry) returns (err: Option<Error>)
      modifies enc
      ensures Suppressed(e.level, debug) ==> err == None && enc.records == old(enc.records)
      ensures !Suppressed(e.level, debug) ==>
                err == enc.failure &&
                enc.records == old(enc.records) + (if enc.failure == None then [ToRecord(e)] else [])
    {
      if e.level == INF || (e.level == DBG && !debug) {
        return None;
      }
      err := enc.Encode(e);
    }
  }

  /** The range loop of the text handler: one " key: value" write per key,
      in the order of `keys`. */
  method WriteTextPairs(w: Writer, keys: seq<string>, data: M)
    requires KeysIn(keys, data)
    modifies w
    ensures w.written == old(w.written) + (if w.failure == None then TextPairs(keys, data) else [])
  {
    var i := 0;
    while i < |keys|
      invariant 0 <= i <= |keys|
      invariant w.failure == None ==> w.written == old(w.written) + TextPairs(keys[..i], data)
      invariant w.failure != None ==> w.written == old(w.written)
    {
      TextPairsOneMore(keys, i, data, old(w.written));
      var _ := w.Write(TextPair(keys[i], data[keys[i]]));
      i := i + 1;
    }
    assert keys[..i] == keys;
  }

  /** The range loop of the two shell handlers: one coloured " key: value"
      write per key, in the order of `keys`. */
  method WriteShellPairs(w: Writer, code: nat, keys: seq<string>, data: M)
    requires KeysIn(keys, data)
    modifies w
    ensures w.written == old(w.written) + (if w.failure == None then ShellPairs(code, keys, data) else [])
  {
    var i := 0;
    while i < |keys|
      invariant 0 <= i <= |keys|
      invariant w.failure == None ==> w.written == old(w.written) + ShellPairs(code, keys[..i], data)
      invariant w.failure != None ==> w.written == old(w.written)
    {
      ShellPairsOneMore(code, keys, i, data, old(w.written));
      var _ := w.Write(ShellPair(code, keys[i], data[keys[i]]));
      i := i + 1;
    }
    assert keys[..i] == keys;
  }

  /** textHandler: "<LVL> <time> <message>[ <key>: <value>]*\n". */
  class TextHandler {
    const w: Writer

    constructor (w: Writer)
      ensures this.w == w
    {
      this.w := w;
    }

    /** Writes the text line (nothing when the destination fails) and
        always returns nil: write errors are ignored. */
    method Log(e: Entry) returns (err: Option<Error>)
      modifies w
      ensures err == None
      ensures w.written == old(w.written) + (if w.failure == None then TextLine(e) else [])
    {
      var _ := w.Write(TextHeader(e));
      var keys := Keys(e.data);
      TextLineWritten(old(w.written), e, keys);
      WriteTextPairs(w, keys, e.data);
      var _ := w.Write("\n");
      err := None;
    }
  }

  /** shellHandler: the text layout with the level token and each "key:"
      in the level's colour, the time in colour 30 and the message in 37. */
  class ShellHandler {
    const w: Writer

    constructor (w: Writer)
      ensures this.w == w
    {
      this.w := w;
    }

    /** Writes the shell line (nothing when the destination fails) and
        always returns nil. */
    method Log(e: Entry) returns (err: Option<Error>)
      modifies w
      ensures err == None
      ensures w.written == old(w.written) + (if w.failure == None then ShellLine(e) else [])
    {
      var _ := w.Write(ShellHeader(e));
      var keys := Keys(e.data);
      ShellLineWritten(old(w.written), e, keys);
      WriteShellPairs(w, Code(e.level), keys, e.data);
      var _ := w.Write("\n");
      err := None;
    }
  }

  /** minimalShellHandler: a level-coloured bullet, the message in colour
      37 and the coloured key segments; no time and no level token. */
  class MinimalShellHandler {
    const w: Writer

    constructor (w: Writer)
      ensures this.w == w
    {
      this.w := w;
    }

    /** Writes the minimal-shell line (nothing when the destination fails)
        and always returns nil. */
    method Log(e: Entry) returns (err: Option<Error>)
      modifies w
      ensures err == None
      ensures w.written == old(w.written) + (if w.failure == None then MinimalLine(e) else [])
    {
      var _ := w.Write(MinimalHeader(e));
      var keys := Keys(e.data);
      MinimalLineWritten(old(w.written), e, keys);
      WriteShellPairs(w, Code(e.level), keys, e.data);
      var _ := w.Write("\n");
      err := None;
    }
  }

  /** discardHandler: writes nothing, never fails. */
  class DiscardHandler {
    constructor ()
    {
    }

    method Log(e: Entry) returns (err: Option<Error>)
      ensures err == None
    {
      err := None;
    }
  }

  /** The Handler interface, closed over its five implementations. */
  datatype Handler =
    | Default(default: DefaultHandler)
    | Text(text: TextHandler)
    | Shell(shell: ShellHandler)
    | MinimalShell(minimal: MinimalShellHandler)
    | Discard(discard: DiscardHandler)

  /** The objects a handler writes to. */
  function Destination(h: Handler): set<object>
  {
    match h
    case Default(d) => {d.enc}
    case Text(t) => {t.w}
    case Shell(s) => {s.w}
    case MinimalShell(m) => {m.w}
    case Discard(_) => {}
  }

  /** The error a handler returns for an entry: only the structured
      handler's encoder can fail, and only for an entry it keeps. */
  function Report(h: Handler, e: Entry): Option<Error>
  {
    match h
    case Default(d) => if Suppressed(e.level, d.debug) then None else d.enc.failure
    case _ => None
  }

  /** What one Handler.Log call does to the handler's destination. */
  twostate predicate Handled(h: Handler, e: Entry)
    reads Destination(h)
  {
    match h
    case Default(d) =>
      d.enc.records == old(d.enc.records) +
        (if Suppressed(e.level, d.debug) || d.enc.failure != None then [] else [ToRecord(e)])
    case Text(t) =>
      t.w.written == old(t.w.written) + (if t.w.failure == None then TextLine(e) else [])
    case Shell(s) =>
      s.w.written == old(s.w.written) + (if s.w.failure == None then ShellLine(e) else [])
    case MinimalShell(m) =>
      m.w.written == old(m.w.written) + (if m.w.failure == None then MinimalLine(e) else [])
    case Discard(_) => true
  }

  /** Handler.Log through the interface: one call of the variant's Log. */
  method Dispatch(h: Handler, e: Entry) returns (err: Option<Error>)
    modifies Destination(h)
    ensures Handled(h, e)
    ensures err == Report(h, e)
  {
    match h
    case Default(d) => err := d.Log(e);
    case Text(t) => err := t.Log(e);
    case Shell(s) => err := s.Log(e);
    case MinimalShell(m) => err := m.Log(e);
    case Discard(x) => err := x.Log(e);
  }
}
