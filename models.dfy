/** The file records of the service (models/file.go) and the document form in
    which the metadata collection stores them, with the conversions the
    driver's default decoders make on the way back. */
module Models {
  import opened Outcomes

  const MinInt64: int := -0x8000_0000_0000_0000
  const MaxInt64: int := 0x7FFF_FFFF_FFFF_FFFF

  /** Go's `int64`, and `int` on a 64-bit platform. */
  type Int64 = x: int | MinInt64 <= x <= MaxInt64

  newtype byte = b: int | 0 <= b < 256
  type Bytes = seq<byte>

  /** An ObjectID: its twelve bytes read as one big-endian number `n`, so
      that ids issued one after another have increasing `n`. 0 is the
      all-zero NilObjectID, which no record is given. */
  datatype ObjectId = ObjectId(n: nat)
  const NilObjectId := ObjectId(0)

  /** 16^24, which is 256^12: every twelve-byte ObjectID has `n` below it. */
  const ObjectIdBound: nat := Power16(24)

  /** A `time.Time` as the nanoseconds since the Unix epoch, in UTC. */
  datatype Time = Time(nanos: int)

  /** The zero `time.Time`: January 1 of year 1, 00:00:00 UTC. */
  const ZeroTime := Time(-62_135_596_800 * 1_000_000_000)

  /** primitive.NewDateTimeFromTime: the milliseconds since the Unix epoch,
      rounded down, which is how BSON stores a time. */
  function UnixMillis(t: Time): int {
    t.nanos / 1_000_000
  }

  /** The time a stored BSON datetime decodes to. */
  function TimeOfMillis(ms: int): Time {
    Time(ms * 1_000_000)
  }

  /** What of a time survives storing it: the time rounded down to a whole
      millisecond. */
  function TruncateToMillis(t: Time): (u: Time)
    ensures u.nanos <= t.nanos < u.nanos + 1_000_000
    ensures u.nanos % 1_000_000 == 0
    ensures t.nanos % 1_000_000 == 0 ==> u == t
  {
    TimeOfMillis(UnixMillis(t))
  }

  // ObjectIDs written as strings

  predicate IsHexDigit(c: char) {
    '0' <= c <= '9' || 'a' <= c <= 'f' || 'A' <= c <= 'F'
  }

  predicate AllHex(s: string) {
    forall i :: 0 <= i < |s| ==> IsHexDigit(s[i])
  }

  function HexDigitValue(c: char): (v: nat)
    requires IsHexDigit(c)
    ensures v < 16
  {
    if c <= '9' then (c as int) - ('0' as int)
    else if c <= 'F' then (c as int) - ('A' as int) + 10
    else (c as int) - ('a' as int) + 10
  }

  /** The lower-case hex digit of `v`, as ObjectID.Hex writes it. */
  function HexDigitChar(v: nat): (c: char)
    requires v < 16
    ensures IsHexDigit(c) && HexDigitValue(c) == v
  {
    if v < 10 then (v + '0' as int) as char else (v - 10 + 'a' as int) as char
  }

  /** The value of a string of hex digits, most significant first. */
  function HexValue(s: string): nat
    requires AllHex(s)
  {
    if s == [] then 0 else 16 * HexValue(s[..|s| - 1]) + HexDigitValue(s[|s| - 1])
  }

  /** The value of a string read as bytes, most significant first. Each
      character stands for one byte of the Go string. */
  function BytesValue(s: string): nat {
    if s == [] then 0 else 256 * BytesValue(s[..|s| - 1]) + (s[|s| - 1] as int) % 256
  }

  /** `n` as exactly `width` lower-case hex digits. */
  function FormatHex(n: nat, width: nat): (s: string)
    requires n < Power16(width)
    ensures |s| == width && AllHex(s) && HexValue(s) == n
  {
    if width == 0 then []
    else
      var s := FormatHex(n / 16, width - 1) + [HexDigitChar(n % 16)];
      assert s[..|s| - 1] == FormatHex(n / 16, width - 1);
      s
  }

  function Power16(e: nat): (p: nat)
    ensures p > 0
  {
    if e == 0 then 1 else 16 * Power16(e - 1)
  }

  /** ObjectID.Hex: the 24 lower-case hex digits of the id. */
  function ObjectIdHex(id: ObjectId): (s: string)
    requires id.n < ObjectIdBound
    ensures |s| == 24 && AllHex(s) && HexValue(s) == id.n
  {
    FormatHex(id.n, 24)
  }

  /** A string of `k` hex digits has a value below 16^k. */
  lemma {:induction false} HexValueBound(s: string)
    requires AllHex(s)
    ensures HexValue(s) < Power16(|s|)
  {
    if s != [] {
      var prefix := s[..|s| - 1];
      HexValueBound(prefix);
      assert HexValue(prefix) + 1 <= Power16(|s| - 1);
      assert 16 * HexValue(prefix) + 16 <= 16 * Power16(|s| - 1);
    }
  }

  /** A string of `k` bytes has a value below 256^k, that is 16^(2k). */
  lemma {:induction false} BytesValueBound(s: string)
    ensures BytesValue(s) < Power16(2 * |s|)
  {
    if s != [] {
      var prefix := s[..|s| - 1];
      BytesValueBound(prefix);
      assert Power16(2 * |s|) == 256 * Power16(2 * |prefix|);
      assert 256 * BytesValue(prefix) + 256 <= 256 * Power16(2 * |prefix|);
    }
  }

  /** The default ObjectID decoder on a BSON string: 24 hex digits in
      either case are parsed as by primitive.ObjectIDFromHex; failing that,
      a string of exactly 12 bytes is taken as the id's bytes; anything
      else is a decode error. */
  function ObjectIdFromString(s: string): (r: Option<ObjectId>)
    ensures r.Some? <==> (|s| == 24 && AllHex(s)) || |s| == 12
    ensures r.Some? ==> r.value.n < ObjectIdBound
  {
    if |s| == 24 && AllHex(s) then HexValueBound(s); Some(ObjectId(HexValue(s)))
    else if |s| == 12 then BytesValueBound(s); Some(ObjectId(BytesValue(s)))
    else None
  }

  /** The decoder reads back the hex form of every ObjectID. */
  lemma ObjectIdFromHexOfHex(id: ObjectId)
    requires id.n < ObjectIdBound
    ensures ObjectIdFromString(ObjectIdHex(id)) == Some(id)
  {
  }

  /** models.FileRequest: the record written on upload. */
  datatype FileRequest = FileRequest(
    name: string,
    timestamp: Time,
    extension: string,
    size: Int64,
    fileId: ObjectId,
    hidden: bool)

  /** models.FileResponse: a stored record together with its own `_id`. */
  datatype FileResponse = FileResponse(
    id: ObjectId,
    name: string,
    timestamp: Time,
    extension: string,
    size: Int64,
    fileId: ObjectId,
    hidden: bool)

  /** A value held in a document field or in a Go `interface{}`: what JSON
      and BSON decoding produce. `VDateTime` is a BSON datetime in
      milliseconds since the Unix epoch. `VOther` stands for any value the
      code only passes along (floating-point numbers, arrays, nested
      documents). */
  datatype Value =
    | VString(s: string)
    | VInt(i: int)
    | VBool(b: bool)
    | VObjectId(id: ObjectId)
    | VDateTime(ms: int)
    | VNull
    | VOther(tag: nat)

  /** A document of the metadata collection, without its `_id`. */
  type Doc = map<string, Value>

  // BSON field names, from the struct tags of models/file.go
  const IdKey := "_id"
  const NameKey := "name"
  const TimestampKey := "timestamp"
  const ExtensionKey := "extension"
  const SizeKey := "size"
  const FileBytesKey := "fileBytes"
  const HiddenKey := "hidden"

  /** The fields a FileRequest occupies in its document. */
  const RecordKeys: set<string> := {NameKey, TimestampKey, ExtensionKey, SizeKey, FileBytesKey, HiddenKey}

  function EncodeFileRequest(r: FileRequest): (d: Doc)
    ensures d.Keys == RecordKeys
  {
    map[NameKey := VString(r.name),
        TimestampKey := VDateTime(UnixMillis(r.timestamp)),
        ExtensionKey := VString(r.extension),
        SizeKey := VInt(r.size),
        FileBytesKey := VObjectId(r.fileId),
        HiddenKey := VBool(r.hidden)]
  }

  // Decoding one field into a struct field: an absent or null field gives the
  // Go zero value, a value of the field's kind gives that value, a string
  // naming an ObjectID gives that id, anything else is a decode error.

  function StringField(d: Doc, key: string): Option<string> {
    if key !in d then Some("")
    else match d[key]
      case VString(s) => Some(s)
      case VNull => Some("")
      case _ => None
  }

  function TimeField(d: Doc, key: string): Option<Time> {
    if key !in d then Some(ZeroTime)
    else match d[key]
      case VDateTime(ms) => Some(TimeOfMillis(ms))
      case VNull => Some(ZeroTime)
      case _ => None
  }

  function Int64Field(d: Doc, key: string): Option<Int64> {
    if key !in d then Some(0)
    else match d[key]
      case VInt(i) => if MinInt64 <= i <= MaxInt64 then Some(i) else None
      case VNull => Some(0)
      case _ => None
  }

  function ObjectIdField(d: Doc, key: string): Option<ObjectId> {
    if key !in d then Some(NilObjectId)
    else match d[key]
      case VObjectId(id) => Some(id)
      case VString(s) => ObjectIdFromString(s)
      case VNull => Some(NilObjectId)
      case _ => None
  }

  function BoolField(d: Doc, key: string): Option<bool> {
    if key !in d then Some(false)
    else match d[key]
      case VBool(b) => Some(b)
      case VNull => Some(false)
      case _ => None
  }

  /** Decodes a document into a FileRequest, as `result.Decode(&fileRequest)`
      does; fields outside RecordKeys are ignored. */
  function DecodeFileRequest(d: Doc): (r: Option<FileRequest>)
    ensures r.Some? <==>
      && StringField(d, NameKey).Some? && TimeField(d, TimestampKey).Some?
      && StringField(d, ExtensionKey).Some? && Int64Field(d, SizeKey).Some?
      && ObjectIdField(d, FileBytesKey).Some? && BoolField(d, HiddenKey).Some?
    ensures r.Some? ==> r.value.fileId == ObjectIdField(d, FileBytesKey).value
  {
    var name :- StringField(d, NameKey);
    var timestamp :- TimeField(d, TimestampKey);
    var extension :- StringField(d, ExtensionKey);
    var size :- Int64Field(d, SizeKey);
    var fileId :- ObjectIdField(d, FileBytesKey);
    var hidden :- BoolField(d, HiddenKey);
    Some(FileRequest(name, timestamp, extension, size, fileId, hidden))
  }

  /** Decodes a document stored under `id` into a FileResponse. */
  function DecodeFileResponse(id: ObjectId, d: Doc): (r: Option<FileResponse>)
    ensures r.Some? <==> DecodeFileRequest(d).Some?
    ensures r.Some? ==> r.value.id == id && r.value.fileId == DecodeFileRequest(d).value.fileId
  {
    var f :- DecodeFileRequest(d);
    Some(FileResponse(id, f.name, f.timestamp, f.extension, f.size, f.fileId, f.hidden))
  }

  /** Decoding inverts encoding up to the time's precision: the stored
      document reads back as the record that was written, its timestamp
      rounded down to a whole millisecond. */
  lemma DecodeEncode(r: FileRequest)
    ensures DecodeFileRequest(EncodeFileRequest(r)) == Some(r.(timestamp := TruncateToMillis(r.timestamp)))
  {
    var d := EncodeFileRequest(r);
    assert StringField(d, NameKey) == Some(r.name);
    assert TimeField(d, TimestampKey) == Some(TruncateToMillis(r.timestamp));
    assert StringField(d, ExtensionKey) == Some(r.extension);
    assert Int64Field(d, SizeKey) == Some(r.size);
    assert ObjectIdField(d, FileBytesKey) == Some(r.fileId);
    assert BoolField(d, HiddenKey) == Some(r.hidden);
  }

  /** A record read back from the store is stored again unchanged: storing
      is exact once the time is in whole milliseconds. */
  lemma EncodeDecodeEncode(r: FileRequest)
    ensures DecodeFileRequest(EncodeFileRequest(r)).Some?
    ensures EncodeFileRequest(DecodeFileRequest(EncodeFileRequest(r)).value) == EncodeFileRequest(r)
  {
    DecodeEncode(r);
  }

  /** Setting fields outside RecordKeys leaves the decoded record as it was. */
  lemma DecodeIgnoresOtherFields(d: Doc, fields: Doc)
    requires fields.Keys !! RecordKeys
    ensures DecodeFileRequest(d + fields) == DecodeFileRequest(d)
  {
    var e := d + fields;
    assert forall k :: k in RecordKeys ==> (k in e <==> k in d) && (k in d ==> e[k] == d[k]);
    assert StringField(e, NameKey) == StringField(d, NameKey);
    assert TimeField(e, TimestampKey) == TimeField(d, TimestampKey);
    assert StringField(e, ExtensionKey) == StringField(d, ExtensionKey);
    assert Int64Field(e, SizeKey) == Int64Field(d, SizeKey);
    assert ObjectIdField(e, FileBytesKey) == ObjectIdField(d, FileBytesKey);
    assert BoolField(e, HiddenKey) == BoolField(d, HiddenKey);
  }

  /** Setting `fileBytes` to an ObjectID points a decodable record at that
      blob and changes nothing else in it. */
  lemma SetFileBytesRetargets(d: Doc, other: ObjectId)
    requires DecodeFileRequest(d).Some?
    ensures DecodeFileRequest(d[FileBytesKey := VObjectId(other)])
         == Some(DecodeFileRequest(d).value.(fileId := other))
  {
    var e := d[FileBytesKey := VObjectId(other)];
    assert StringField(e, NameKey) == StringField(d, NameKey);
    assert TimeField(e, TimestampKey) == TimeField(d, TimestampKey);
    assert StringField(e, ExtensionKey) == StringField(d, ExtensionKey);
    assert Int64Field(e, SizeKey) == Int64Field(d, SizeKey);
    assert BoolField(e, HiddenKey) == BoolField(d, HiddenKey);
  }

  /** A string in `fileBytes` names a blob too: a string the decoder reads
      as an ObjectID points a decodable record at that id and changes
      nothing else in it; any other string makes the record undecodable. */
  lemma SetFileBytesToString(d: Doc, s: string)
    requires DecodeFileRequest(d).Some?
    ensures var e := d[FileBytesKey := VString(s)];
      match ObjectIdFromString(s)
      case Some(id) => DecodeFileRequest(e) == Some(DecodeFileRequest(d).value.(fileId := id))
      case None => DecodeFileRequest(e).None?
  {
    var e := d[FileBytesKey := VString(s)];
    assert StringField(e, NameKey) == StringField(d, NameKey);
    assert TimeField(e, TimestampKey) == TimeField(d, TimestampKey);
    assert StringField(e, ExtensionKey) == StringField(d, ExtensionKey);
    assert Int64Field(e, SizeKey) == Int64Field(d, SizeKey);
    assert BoolField(e, HiddenKey) == BoolField(d, HiddenKey);
  }
}
