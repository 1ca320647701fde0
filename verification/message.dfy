/** lib/core/message.rb: the four fields that are AMQP data. */
module Messages {
  /* They are written before a message is encoded and read after one is decoded. The sections hold what the message
     carries on the wire; the wire itself is not part of this model. */

  import opened Wrappers
  import opened Values
  import opened Cursors
  import opened Codec
  import opened RoundTrips
  import opened Mappings

  /** properties, instructions, annotations and body. */
  datatype Fields = Fields(properties: Value, instructions: Value, annotations: Value, body: Value)

  datatype Sections = Sections(properties: seq<Node>, instructions: seq<Node>, annotations: seq<Node>, body: seq<Node>)

  /** empty?, where there is such a method. */
  function IsEmpty(v: Value): Result<bool, Failure> {
    match v
    case Hash(es) => Ok(es == [])
    case Arr(_, vs) => Ok(vs == [])
    case Str(s, _, _) => Ok(s == [])
    case Sym(s) => Ok(s == [])
    case _ => Err(NoMethodFailure)
  }

  function One(node: Result<Node, Failure>): Result<seq<Node>, Failure> {
    if node.Ok? then Ok([node.value]) else Err(node.error)
  }

  function PropertiesSection(v: Value): Result<seq<Node>, Failure> {
    match IsEmpty(v)
    case Err(e) => Err(e)
    case Ok(empty) => if empty then Ok([]) else One(Encode(ForClass(v), v))
  }

  function OptionalSection(v: Value): Result<seq<Node>, Failure> {
    if v.Nil? then Ok([]) else One(Encode(ForClass(v), v))
  }

  /** Only MAP.put takes the option. */
  function AnnotationsSection(v: Value): Result<seq<Node>, Failure> {
    if v.Nil? then Ok([]) else if v.Hash? then One(EncodeMap(v, true)) else Err(ArgumentFailure)
  }

  /** pre_encode: the sections, or the first failure. */
  function PreEncoded(f: Fields): Result<Sections, Failure> {
    var properties := PropertiesSection(f.properties);
    var instructions := OptionalSection(f.instructions);
    var annotations := AnnotationsSection(f.annotations);
    var body := OptionalSection(f.body);
    if properties.Err? then Err(properties.error)
    else if instructions.Err? then Err(instructions.error)
    else if annotations.Err? then Err(annotations.error)
    else if body.Err? then Err(body.error)
    else Ok(Sections(properties.value, instructions.value, annotations.value, body.value))
  }

  function FieldOf(section: seq<Node>, absent: Value): Result<Value, Failure> {
    if section == [] then Ok(absent) else Decode(section[0])
  }

  /** post_decode */
  function PostDecoded(s: Sections): Result<Fields, Failure> {
    var properties := FieldOf(s.properties, Hash([]));
    var instructions := FieldOf(s.instructions, Nil);
    var annotations := FieldOf(s.annotations, Nil);
    var body := FieldOf(s.body, Nil);
    if properties.Err? then Err(properties.error)
    else if instructions.Err? then Err(instructions.error)
    else if annotations.Err? then Err(annotations.error)
    else if body.Err? then Err(body.error)
    else Ok(Fields(properties.value, instructions.value, annotations.value, body.value))
  }

  function SentAndReceived(f: Fields): Result<Fields, Failure> {
    match PreEncoded(f)
    case Ok(s) => PostDecoded(s)
    case Err(e) => Err(e)
  }

  predicate FitsMessage(f: Fields) {
    && IsEmpty(f.properties).Ok? && (IsEmpty(f.properties).value || Fits(ForClass(f.properties), f.properties))
    && (f.instructions.Nil? || Fits(ForClass(f.instructions), f.instructions))
    && (f.annotations.Nil? || (f.annotations.Hash? && FitsPairs(f.annotations, |f.annotations.entries|, true)))
    && (f.body.Nil? || Fits(ForClass(f.body), f.body))
  }

  function NormOptional(v: Value): Value {
    if v.Nil? then Nil else Norm(ForClass(v), v)
  }

  function NormMessage(f: Fields): Fields
    requires FitsMessage(f)
  {
    Fields(
      if IsEmpty(f.properties).value then Hash([]) else Norm(ForClass(f.properties), f.properties),
      NormOptional(f.instructions),
      if f.annotations.Nil? then Nil else Hash(StoreAll(NormPairs(f.annotations, true))),
      NormOptional(f.body))
  }

  lemma OptionalRoundTrip(v: Value, absent: Value)
    ensures
      var fits := v.Nil? || Fits(ForClass(v), v);
      match OptionalSection(v)
      case Err(_) => !fits
      case Ok(s) =>
        && (FieldOf(s, absent).Ok? <==> fits)
        && (fits ==> FieldOf(s, absent) == Ok(if v.Nil? then absent else Norm(ForClass(v), v)))
  {
    ValueRoundTrip(ForClass(v), v);
  }

  lemma PropertiesRoundTrip(v: Value)
    ensures
      var fits := IsEmpty(v).Ok? && (IsEmpty(v).value || Fits(ForClass(v), v));
      match PropertiesSection(v)
      case Err(_) => !fits
      case Ok(s) =>
        && (FieldOf(s, Hash([])).Ok? <==> fits)
        && (fits ==> FieldOf(s, Hash([])) == Ok(if IsEmpty(v).value then Hash([]) else Norm(ForClass(v), v)))
  {
    ValueRoundTrip(ForClass(v), v);
  }

  lemma AnnotationsRoundTrip(v: Value)
    ensures
      var fits := v.Nil? || (v.Hash? && FitsPairs(v, |v.entries|, true));
      match AnnotationsSection(v)
      case Err(_) => !fits
      case Ok(s) =>
        && (FieldOf(s, Nil).Ok? <==> fits)
        && (fits ==> FieldOf(s, Nil) == Ok(if v.Nil? then Nil else Hash(StoreAll(NormPairs(v, true)))))
  {
    if v.Hash? { MapRoundTrip(v, true); }
  }

  /** A message that is sent and received has its four fields back, normalised, exactly if each of them fits: the
      annotations need keys that are strings or nil, empty properties come back as an empty hash, and an absent field
      as nil. */
  lemma MessageRoundTrip(f: Fields)
    ensures SentAndReceived(f).Ok? <==> FitsMessage(f)
    ensures FitsMessage(f) ==> SentAndReceived(f) == Ok(NormMessage(f))
  {
    PropertiesRoundTrip(f.properties);
    OptionalRoundTrip(f.instructions, Nil);
    AnnotationsRoundTrip(f.annotations);
    OptionalRoundTrip(f.body, Nil);
  }

  // ----- The message as an object.

  class Message {
    var fields: Fields
    const properties: Data
    const instructions: Data
    const annotations: Data
    const body: Data

    ghost predicate Valid() {
      properties != instructions && properties != annotations && properties != body
      && instructions != annotations && instructions != body && annotations != body
    }

    constructor ()
      ensures Valid() && fresh(properties) && fresh(instructions) && fresh(annotations) && fresh(body)
      ensures fields == Fields(Hash([]), Hash([]), Hash([]), Nil)
    {
      properties := new Data();
      instructions := new Data();
      annotations := new Data();
      body := new Data();
      fields := Fields(Hash([]), Hash([]), Hash([]), Nil);
    }

    /** The sections hold exactly these nodes. */
    ghost predicate Holds(s: Sections)
      reads properties, instructions, annotations, body
    {
      && properties.at.siblings == s.properties && properties.at.above == []
      && instructions.at.siblings == s.instructions && instructions.at.above == []
      && annotations.at.siblings == s.annotations && annotations.at.above == []
      && body.at.siblings == s.body && body.at.above == []
    }

    method PreEncode() returns (failure: Option<Failure>)
      requires Valid()
      modifies properties, instructions, annotations, body
      ensures
        match PreEncoded(fields)
        case Ok(s) => failure.None? && Holds(s)
        case Err(e) => failure == Some(e)
    {
      properties.Clear();
      match IsEmpty(fields.properties) {
        case Err(e) => return Some(e);
        case Ok(empty) =>
          if !empty {
            failure := Put(properties, ForClass(fields.properties), fields.properties);
            if failure.Some? { return; }
          }
      }
      instructions.Clear();
      if !fields.instructions.Nil? {
        failure := Put(instructions, ForClass(fields.instructions), fields.instructions);
        if failure.Some? { return; }
      }
      annotations.Clear();
      if !fields.annotations.Nil? {
        if !fields.annotations.Hash? { return Some(ArgumentFailure); }
        failure := PutMap(annotations, fields.annotations, true);
        if failure.Some? { return; }
      }
      body.Clear();
      if !fields.body.Nil? {
        failure := Put(body, ForClass(fields.body), fields.body);
        if failure.Some? { return; }
      }
      failure := None;
    }

    /** One section, whose cursor is before the first node. */
    method ReadSection(data: Data, absent: Value) returns (r: Result<Value, Failure>)
      requires data.at.Valid() && data.at.passed == 0
      modifies data
      ensures r == FieldOf(old(data.at.siblings), absent)
    {
      var ok := data.Next();
      if !ok { return Ok(absent); }
      r := Get(data, data.at.Current());
    }

    method PostDecode(ghost s: Sections) returns (failure: Option<Failure>)
      requires Valid() && Holds(s)
      requires properties.at.passed == 0 && instructions.at.passed == 0
      requires annotations.at.passed == 0 && body.at.passed == 0
      modifies this, properties, instructions, annotations, body
      ensures
        match PostDecoded(s)
        case Ok(f) => failure.None? && fields == f
        case Err(e) => failure == Some(e)
    {
      fields := fields.(properties := Hash([]));
      var r := ReadSection(properties, Hash([]));
      if r.Err? { return Some(r.error); }
      fields := fields.(properties := r.value, instructions := Nil);
      r := ReadSection(instructions, Nil);
      if r.Err? { return Some(r.error); }
      fields := fields.(instructions := r.value, annotations := Nil);
      r := ReadSection(annotations, Nil);
      if r.Err? { return Some(r.error); }
      fields := fields.(annotations := r.value, body := Nil);
      r := ReadSection(body, Nil);
      if r.Err? { return Some(r.error); }
      fields := fields.(body := r.value);
      failure := None;
    }
  }
}
