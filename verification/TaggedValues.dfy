// The tagged encoding of an analysis result, and the decoder that reads it in the parent.

module TaggedValues {
  import opened Prelude

  const TAG := "__lumae_type__"

  // A dataclass: where it is defined and its field names, in order.
  datatype Class = Class(plugin: bool, moduleName: string, name: string, fields: seq<string>)

  datatype Key = Name(text: string) | NotText(key: nat)

  datatype Entry = Entry(key: Key, value: Value)

  // A Python value. Subclass stands for an instance of a subclass of a built-in type, Numpy for a
  // numpy scalar and Buffer for a bytearray or memoryview; floats are left abstract.
  datatype Value =
    | Nothing
    | Bool(b: bool)
    | Text(text: string)
    | Int(n: int)
    | Float(f: nat)
    | Bytes(bytes: seq<nat>)
    | Buffer(bytes: seq<nat>)
    | Tuple(items: seq<Value>)
    | List(items: seq<Value>)
    | Dict(entries: seq<Entry>)
    | Data(cls: Class, values: seq<Value>)
    | Numpy(item: Value)
    | Subclass(base: Value)
    | Unsupported(kind: nat)

  datatype Member = Member(key: string, value: Json)

  datatype Json =
    | Null
    | JBool(b: bool)
    | JText(text: string)
    | JInt(n: int)
    | JFloat(f: nat)
    | JList(items: seq<Json>)
    | JObject(members: seq<Member>)

  // base64 and the import system, as the decoder sees them.
  datatype Host = Host(encode64: seq<nat> -> string, decode64: string -> Option<seq<nat>>,
                       resolve: (string, string) -> Option<Class>)

  ghost predicate Sound(h: Host) {
    forall b :: h.decode64(h.encode64(b)) == Some(b)
  }

  // ---------------------------------------------------------------- encoding

  predicate TextKeys(entries: seq<Entry>) {
    forall i :: 0 <= i < |entries| ==> entries[i].key.Name? && entries[i].key.text != TAG
  }

  function ClassRef(c: Class): Json {
    JObject([Member("plugin", JBool(c.plugin)), Member("module", JText(c.moduleName)), Member("name", JText(c.name))])
  }

  function Encode(h: Host, v: Value): Option<Json>
    decreases v, 0
  {
    match v
    case Nothing => Some(Null)
    case Bool(b) => Some(JBool(b))
    case Text(s) => Some(JText(s))
    case Int(n) => Some(JInt(n))
    case Float(f) => Some(JFloat(f))
    case Bytes(b) => Some(JObject([Member(TAG, JText("bytes")), Member("b64", JText(h.encode64(b)))]))
    case Buffer(b) => Some(JObject([Member(TAG, JText("bytes")), Member("b64", JText(h.encode64(b)))]))
    case Tuple(items) =>
      (match EncodeAll(h, v, items, |items|)
       case None => None
       case Some(js) => Some(JObject([Member(TAG, JText("tuple")), Member("items", JList(js))])))
    case List(items) =>
      (match EncodeAll(h, v, items, |items|)
       case None => None
       case Some(js) => Some(JList(js)))
    case Dict(entries) =>
      if !TextKeys(entries) then None
      else
        (match EncodeEntries(h, v, entries, |entries|)
         case None => None
         case Some(ms) => Some(JObject(ms)))
    case Data(c, values) =>
      (match EncodeFields(h, v, c.fields, values, Min(|c.fields|, |values|))
       case None => None
       case Some(ms) =>
         Some(JObject([Member(TAG, JText("dataclass")), Member("class", ClassRef(c)), Member("fields", JObject(ms))])))
    case Numpy(item) => Encode(h, item)
    case Subclass(base) => Encode(h, base)
    case Unsupported(_) => None
  }

  function EncodeAll(h: Host, ghost whole: Value, items: seq<Value>, n: nat): (r: Option<seq<Json>>)
    requires n <= |items| && forall i :: 0 <= i < |items| ==> items[i] < whole
    ensures r.Some? ==> |r.value| == n
    decreases whole, 0, n
  {
    if n == 0 then Some([])
    else
      var init := EncodeAll(h, whole, items, n - 1);
      var last := Encode(h, items[n - 1]);
      if init.Some? && last.Some? then Some(init.value + [last.value]) else None
  }

  function EncodeEntries(h: Host, ghost whole: Value, entries: seq<Entry>, n: nat): (r: Option<seq<Member>>)
    requires n <= |entries| && TextKeys(entries) && forall i :: 0 <= i < |entries| ==> entries[i].value < whole
    ensures r.Some? ==> |r.value| == n && forall i :: 0 <= i < n ==> r.value[i].key == entries[i].key.text
    decreases whole, 0, n
  {
    if n == 0 then Some([])
    else
      var init := EncodeEntries(h, whole, entries, n - 1);
      var last := Encode(h, entries[n - 1].value);
      if init.Some? && last.Some? then Some(init.value + [Member(entries[n - 1].key.text, last.value)]) else None
  }

  function EncodeFields(h: Host, ghost whole: Value, names: seq<string>, values: seq<Value>, n: nat): (r: Option<seq<Member>>)
    requires n <= |names| && n <= |values| && forall i :: 0 <= i < |values| ==> values[i] < whole
    ensures r.Some? ==> |r.value| == n && forall i :: 0 <= i < n ==> r.value[i].key == names[i]
    decreases whole, 0, n
  {
    if n == 0 then Some([])
    else
      var init := EncodeFields(h, whole, names, values, n - 1);
      var last := Encode(h, values[n - 1]);
      if init.Some? && last.Some? then Some(init.value + [Member(names[n - 1], last.value)]) else None
  }

  // ---------------------------------------------------------------- decoding

  function Find(ms: seq<Member>, key: string): (r: Option<nat>)
    ensures r.Some? ==> r.value < |ms| && ms[r.value].key == key
    ensures r.None? ==> forall i :: 0 <= i < |ms| ==> ms[i].key != key
  {
    if ms == [] then None
    else if ms[0].key == key then Some(0)
    else
      var rest := Find(ms[1..], key);
      assert forall i :: 1 <= i < |ms| ==> ms[i] == ms[1..][i - 1];
      if rest.Some? then Some(rest.value + 1) else None
  }

  // dict.get: null where the key is missing.
  function Get(ms: seq<Member>, key: string): Json {
    var i := Find(ms, key);
    if i.Some? then ms[i.value].value else Null
  }

  predicate Truthy(j: Json) {
    match j
    case Null => false
    case JBool(b) => b
    case JText(s) => s != ""
    case JInt(n) => n != 0
    case JFloat(f) => f != 0
    case JList(items) => items != []
    case JObject(ms) => ms != []
  }

  // Only the plugin's own dataclasses may be named.
  function DecodeClass(h: Host, ref: Json): Option<Class> {
    if !ref.JObject? || !Truthy(Get(ref.members, "plugin")) then None
    else
      var m, n := Get(ref.members, "module"), Get(ref.members, "name");
      if m.JText? && n.JText? then h.resolve(m.text, n.text) else None
  }

  function IndexOf(entries: seq<Entry>, key: string): (r: Option<nat>)
    ensures r.Some? ==> r.value < |entries| && entries[r.value].key == Name(key)
    ensures r.None? ==> forall i :: 0 <= i < |entries| ==> entries[i].key != Name(key)
  {
    if entries == [] then None
    else if entries[0].key == Name(key) then Some(0)
    else
      var rest := IndexOf(entries[1..], key);
      assert forall i :: 1 <= i < |entries| ==> entries[i] == entries[1..][i - 1];
      if rest.Some? then Some(rest.value + 1) else None
  }

  // The arguments a constructor gets must be its fields, no more and no fewer.
  predicate Fits(c: Class, entries: seq<Entry>) {
    |entries| == |c.fields| && forall i :: 0 <= i < |c.fields| ==> IndexOf(entries, c.fields[i]).Some?
  }

  function Construct(c: Class, entries: seq<Entry>): Option<Value> {
    if !Fits(c, entries) then None
    else
      Some(Data(c, seq(|c.fields|, i requires 0 <= i < |c.fields| && IndexOf(entries, c.fields[i]).Some? =>
        entries[IndexOf(entries, c.fields[i]).value].value)))
  }

  function Letters(s: string): seq<Value> {
    seq(|s|, i requires 0 <= i < |s| => Text([s[i]]))
  }

  function KeyTexts(ms: seq<Member>): seq<Value> {
    seq(|ms|, i requires 0 <= i < |ms| => Text(ms[i].key))
  }

  function Decode(h: Host, j: Json): Option<Value>
    decreases j, 2
  {
    match j
    case Null => Some(Nothing)
    case JBool(b) => Some(Bool(b))
    case JText(s) => Some(Text(s))
    case JInt(n) => Some(Int(n))
    case JFloat(f) => Some(Float(f))
    case JList(items) =>
      (match DecodeAll(h, j, items, |items|)
       case None => None
       case Some(vs) => Some(List(vs)))
    case JObject(ms) =>
      var kind := Get(ms, TAG);
      if kind == Null then
        (match DecodeMembers(h, j, ms, |ms|)
         case None => None
         case Some(es) => Some(Dict(es)))
      else if kind == JText("bytes") then
        var text := Get(ms, "b64");
        var bytes := if text.JText? then h.decode64(text.text) else None;
        if bytes.Some? then Some(Bytes(bytes.value)) else None
      else if kind == JText("tuple") then DecodeTuple(h, j, ms)
      else if kind == JText("dataclass") then DecodeData(h, j, ms)
      else None
  }

  // tuple(...) iterates whatever it is given: a list, a text or an object's keys.
  function DecodeTuple(h: Host, ghost whole: Json, ms: seq<Member>): Option<Value>
    requires whole == JObject(ms)
    decreases whole, 1, 0
  {
    var i := Find(ms, "items");
    if i.None? then None
    else
      match ms[i.value].value
      case JList(items) =>
        (match DecodeAll(h, whole, items, |items|)
         case None => None
         case Some(vs) => Some(Tuple(vs)))
      case JText(text) => Some(Tuple(Letters(text)))
      case JObject(inner) => Some(Tuple(KeyTexts(inner)))
      case _ => None
  }

  function DecodeData(h: Host, ghost whole: Json, ms: seq<Member>): Option<Value>
    requires whole == JObject(ms)
    decreases whole, 1, 0
  {
    var c := DecodeClass(h, Get(ms, "class"));
    var i := Find(ms, "fields");
    if c.None? || i.None? || !ms[i.value].value.JObject? then None
    else
      var inner := ms[i.value].value.members;
      match DecodeMembers(h, whole, inner, |inner|)
      case None => None
      case Some(es) => Construct(c.value, es)
  }

  function DecodeAll(h: Host, ghost whole: Json, items: seq<Json>, n: nat): (r: Option<seq<Value>>)
    requires n <= |items| && forall i :: 0 <= i < |items| ==> items[i] < whole
    ensures r.Some? ==> |r.value| == n
    decreases whole, 0, n
  {
    if n == 0 then Some([])
    else
      var init := DecodeAll(h, whole, items, n - 1);
      var last := Decode(h, items[n - 1]);
      if init.Some? && last.Some? then Some(init.value + [last.value]) else None
  }

  function DecodeMembers(h: Host, ghost whole: Json, ms: seq<Member>, n: nat): (r: Option<seq<Entry>>)
    requires n <= |ms| && forall i :: 0 <= i < |ms| ==> ms[i].value < whole
    ensures r.Some? ==> |r.value| == n && forall i :: 0 <= i < n ==> r.value[i].key == Name(ms[i].key)
    decreases whole, 0, n
  {
    if n == 0 then Some([])
    else
      var init := DecodeMembers(h, whole, ms, n - 1);
      var last := Decode(h, ms[n - 1].value);
      if init.Some? && last.Some? then Some(init.value + [Entry(Name(ms[n - 1].key), last.value)]) else None
  }

  // ---------------------------------------------------------------- the round trip

  // What any Python value is: distinct keys, and one value for each field.
  ghost predicate Proper(v: Value) {
    match v
    case Tuple(items) => forall i :: 0 <= i < |items| ==> Proper(items[i])
    case List(items) => forall i :: 0 <= i < |items| ==> Proper(items[i])
    case Dict(entries) => forall i :: 0 <= i < |entries| ==> Proper(entries[i].value)
    case Data(c, values) =>
      |values| == |c.fields| && Distinct(c.fields) && forall i :: 0 <= i < |values| ==> Proper(values[i])
    case Numpy(item) => Proper(item)
    case Subclass(base) => Proper(base)
    case _ => true
  }

  // Built from what the encoding supports, without a key that could be taken for a tag.
  ghost predicate Encodable(v: Value) {
    match v
    case Tuple(items) => forall i :: 0 <= i < |items| ==> Encodable(items[i])
    case List(items) => forall i :: 0 <= i < |items| ==> Encodable(items[i])
    case Dict(entries) => TextKeys(entries) && forall i :: 0 <= i < |entries| ==> Encodable(entries[i].value)
    case Data(_, values) => forall i :: 0 <= i < |values| ==> Encodable(values[i])
    case Numpy(item) => Encodable(item)
    case Subclass(base) => Encodable(base)
    case Unsupported(_) => false
    case _ => true
  }

  // Every dataclass inside is the plugin's own, and its reference leads back to it.
  ghost predicate Faithful(h: Host, v: Value) {
    match v
    case Tuple(items) => forall i :: 0 <= i < |items| ==> Faithful(h, items[i])
    case List(items) => forall i :: 0 <= i < |items| ==> Faithful(h, items[i])
    case Dict(entries) => forall i :: 0 <= i < |entries| ==> Faithful(h, entries[i].value)
    case Data(c, values) =>
      c.plugin && h.resolve(c.moduleName, c.name) == Some(c) && forall i :: 0 <= i < |values| ==> Faithful(h, values[i])
    case Numpy(item) => Faithful(h, item)
    case Subclass(base) => Faithful(h, base)
    case _ => true
  }

  // The same value in built-in types.
  function Normal(v: Value): Value {
    match v
    case Buffer(b) => Bytes(b)
    case Tuple(items) => Tuple(seq(|items|, i requires 0 <= i < |items| => Normal(items[i])))
    case List(items) => List(seq(|items|, i requires 0 <= i < |items| => Normal(items[i])))
    case Dict(entries) =>
      Dict(seq(|entries|, i requires 0 <= i < |entries| => Entry(entries[i].key, Normal(entries[i].value))))
    case Data(c, values) => Data(c, seq(|values|, i requires 0 <= i < |values| => Normal(values[i])))
    case Numpy(item) => Normal(item)
    case Subclass(base) => Normal(base)
    case _ => v
  }

  // A value made of built-in types and dataclasses only.
  predicate BuiltIn(v: Value) {
    match v
    case Buffer(_) => false
    case Numpy(_) => false
    case Subclass(_) => false
    case Tuple(items) => forall i :: 0 <= i < |items| ==> BuiltIn(items[i])
    case List(items) => forall i :: 0 <= i < |items| ==> BuiltIn(items[i])
    case Dict(entries) => forall i :: 0 <= i < |entries| ==> BuiltIn(entries[i].value)
    case Data(_, values) => forall i :: 0 <= i < |values| ==> BuiltIn(values[i])
    case _ => true
  }

  // The normal form is built in, and a scalar of another library, or an instance of a subclass, has
  // that of what it stands for.
  lemma {:induction false} NormalIsBuiltIn(v: Value)
    ensures BuiltIn(Normal(v))
    ensures Normal(Numpy(v)) == Normal(v) && Normal(Subclass(v)) == Normal(v)
    decreases v
  {
    match v
    case Tuple(items) => forall i | 0 <= i < |items| { NormalIsBuiltIn(items[i]); }
    case List(items) => forall i | 0 <= i < |items| { NormalIsBuiltIn(items[i]); }
    case Dict(entries) => forall i | 0 <= i < |entries| { NormalIsBuiltIn(entries[i].value); }
    case Data(_, values) => forall i | 0 <= i < |values| { NormalIsBuiltIn(values[i]); }
    case Numpy(item) => NormalIsBuiltIn(item);
    case Subclass(base) => NormalIsBuiltIn(base);
    case _ =>
  }

  // What is built in is its own normal form: such a value returns unchanged.
  lemma {:induction false} BuiltInIsNormal(v: Value)
    requires BuiltIn(v)
    ensures Normal(v) == v
    decreases v
  {
    match v
    case Tuple(items) =>
      forall i | 0 <= i < |items| { BuiltInIsNormal(items[i]); }
      SameItems(items);
    case List(items) =>
      forall i | 0 <= i < |items| { BuiltInIsNormal(items[i]); }
      SameItems(items);
    case Dict(entries) =>
      forall i | 0 <= i < |entries| { BuiltInIsNormal(entries[i].value); }
      SameEntries(entries);
    case Data(_, values) =>
      forall i | 0 <= i < |values| { BuiltInIsNormal(values[i]); }
      SameItems(values);
    case _ =>
  }

  lemma SameItems(items: seq<Value>)
    requires forall i :: 0 <= i < |items| ==> Normal(items[i]) == items[i]
    ensures seq(|items|, i requires 0 <= i < |items| => Normal(items[i])) == items
  {
  }

  lemma SameEntries(entries: seq<Entry>)
    requires forall i :: 0 <= i < |entries| ==> Normal(entries[i].value) == entries[i].value
    ensures seq(|entries|, i requires 0 <= i < |entries| => Entry(entries[i].key, Normal(entries[i].value))) == entries
  {
  }

  // Decoding yields the normal form exactly when the value is faithful; a value that is not
  // decodes to something else or not at all.
  ghost predicate Returns(h: Host, v: Value, j: Json) {
    Decode(h, j) == Some(Normal(v)) <==> Faithful(h, v)
  }

  // What encoding succeeds on.
  lemma {:induction false} EncodesExactly(h: Host, v: Value)
    requires Proper(v)
    ensures Encode(h, v).Some? <==> Encodable(v)
    decreases v, 1, 0
  {
    match v
    case Tuple(items) => AllEncode(h, v, items, |items|);
    case List(items) => AllEncode(h, v, items, |items|);
    case Dict(entries) => if TextKeys(entries) { EntriesEncode(h, v, entries, |entries|); }
    case Data(c, values) => FieldsEncode(h, v, c.fields, values, |values|);
    case Numpy(item) => EncodesExactly(h, item);
    case Subclass(base) => EncodesExactly(h, base);
    case _ =>
  }

  lemma {:induction false} AllEncode(h: Host, whole: Value, items: seq<Value>, n: nat)
    requires n <= |items| && forall i :: 0 <= i < |items| ==> items[i] < whole && Proper(items[i])
    ensures EncodeAll(h, whole, items, n).Some? <==> forall i :: 0 <= i < n ==> Encodable(items[i])
    ensures EncodeAll(h, whole, items, n).Some? ==>
      forall i :: 0 <= i < n ==> Encode(h, items[i]) == Some(EncodeAll(h, whole, items, n).value[i])
    decreases whole, 0, n
  {
    if n > 0 {
      AllEncode(h, whole, items, n - 1);
      EncodesExactly(h, items[n - 1]);
    }
  }

  lemma {:induction false} EntriesEncode(h: Host, whole: Value, entries: seq<Entry>, n: nat)
    requires n <= |entries| && TextKeys(entries)
    requires forall i :: 0 <= i < |entries| ==> entries[i].value < whole && Proper(entries[i].value)
    ensures EncodeEntries(h, whole, entries, n).Some? <==> forall i :: 0 <= i < n ==> Encodable(entries[i].value)
    ensures EncodeEntries(h, whole, entries, n).Some? ==>
      forall i :: 0 <= i < n ==> Encode(h, entries[i].value) == Some(EncodeEntries(h, whole, entries, n).value[i].value)
    decreases whole, 0, n
  {
    hide Encodable, Proper, Encode;
    if n > 0 {
      EntriesEncode(h, whole, entries, n - 1);
      EncodesExactly(h, entries[n - 1].value);
    }
  }

  lemma {:induction false} FieldsEncode(h: Host, whole: Value, names: seq<string>, values: seq<Value>, n: nat)
    requires n <= |names| && n <= |values| && forall i :: 0 <= i < |values| ==> values[i] < whole && Proper(values[i])
    ensures EncodeFields(h, whole, names, values, n).Some? <==> forall i :: 0 <= i < n ==> Encodable(values[i])
    ensures EncodeFields(h, whole, names, values, n).Some? ==>
      forall i :: 0 <= i < n ==> Encode(h, values[i]) == Some(EncodeFields(h, whole, names, values, n).value[i].value)
    decreases whole, 0, n
  {
    if n > 0 {
      FieldsEncode(h, whole, names, values, n - 1);
      EncodesExactly(h, values[n - 1]);
    }
  }

  // Decoding a list, element by element.
  lemma {:induction false} DecodedAll(h: Host, whole: Json, items: seq<Json>, n: nat)
    requires n <= |items| && forall i :: 0 <= i < |items| ==> items[i] < whole
    ensures DecodeAll(h, whole, items, n).Some? <==> forall i :: 0 <= i < n ==> Decode(h, items[i]).Some?
    ensures DecodeAll(h, whole, items, n).Some? ==>
      forall i :: 0 <= i < n ==> Decode(h, items[i]) == Some(DecodeAll(h, whole, items, n).value[i])
  {
    if n > 0 { DecodedAll(h, whole, items, n - 1); }
  }

  lemma {:induction false} DecodedMembers(h: Host, whole: Json, ms: seq<Member>, n: nat)
    requires n <= |ms| && forall i :: 0 <= i < |ms| ==> ms[i].value < whole
    ensures DecodeMembers(h, whole, ms, n).Some? <==> forall i :: 0 <= i < n ==> Decode(h, ms[i].value).Some?
    ensures DecodeMembers(h, whole, ms, n).Some? ==>
      forall i :: 0 <= i < n ==> Decode(h, ms[i].value) == Some(DecodeMembers(h, whole, ms, n).value[i].value)
  {
    if n > 0 { DecodedMembers(h, whole, ms, n - 1); }
  }

  lemma {:induction false} FindFirst(ms: seq<Member>, key: string, i: nat)
    requires i < |ms| && ms[i].key == key && forall k :: 0 <= k < i ==> ms[k].key != key
    ensures Find(ms, key) == Some(i) && Get(ms, key) == ms[i].value
  {
    if i > 0 { FindFirst(ms[1..], key, i - 1); }
  }

  lemma {:induction false} IndexFirst(entries: seq<Entry>, key: string, i: nat)
    requires i < |entries| && entries[i].key == Name(key) && forall k :: 0 <= k < i ==> entries[k].key != Name(key)
    ensures IndexOf(entries, key) == Some(i)
  {
    if i > 0 { IndexFirst(entries[1..], key, i - 1); }
  }

  // A list comes back element by element.
  lemma {:induction false} ListReturns(h: Host, whole: Json, items: seq<Value>, js: seq<Json>)
    requires |js| == |items| && forall i :: 0 <= i < |js| ==> js[i] < whole
    requires forall i :: 0 <= i < |js| ==> Returns(h, items[i], js[i])
    ensures DecodeAll(h, whole, js, |js|) == Some(seq(|items|, i requires 0 <= i < |items| => Normal(items[i])))
        <==> forall i :: 0 <= i < |items| ==> Faithful(h, items[i])
  {
    hide Decode, Faithful, Normal;
    DecodedAll(h, whole, js, |js|);
    var all := DecodeAll(h, whole, js, |js|);
    var normal := seq(|items|, i requires 0 <= i < |items| => Normal(items[i]));
    if all == Some(normal) {
      forall i | 0 <= i < |items| ensures Faithful(h, items[i]) {
        assert Returns(h, items[i], js[i]);
        assert normal[i] == Normal(items[i]);
      }
    }
    if forall i :: 0 <= i < |items| ==> Faithful(h, items[i]) {
      assert forall i :: 0 <= i < |js| ==> Returns(h, items[i], js[i]) && Decode(h, js[i]) == Some(Normal(items[i]));
      assert all.value == normal;
    }
  }

  lemma {:induction false} MembersReturn(h: Host, whole: Json, values: seq<Value>, ms: seq<Member>)
    requires |ms| == |values| && forall i :: 0 <= i < |ms| ==> ms[i].value < whole
    requires forall i :: 0 <= i < |ms| ==> Returns(h, values[i], ms[i].value)
    ensures var all := DecodeMembers(h, whole, ms, |ms|);
      (all.Some? && forall i :: 0 <= i < |values| ==> all.value[i].value == Normal(values[i]))
      <==> forall i :: 0 <= i < |values| ==> Faithful(h, values[i])
  {
    hide Decode, Faithful, Normal;
    DecodedMembers(h, whole, ms, |ms|);
    var all := DecodeMembers(h, whole, ms, |ms|);
    if all.Some? && forall i :: 0 <= i < |values| ==> all.value[i].value == Normal(values[i]) {
      forall i | 0 <= i < |values| ensures Faithful(h, values[i]) {
        assert Returns(h, values[i], ms[i].value);
      }
    }
    if forall i :: 0 <= i < |values| ==> Faithful(h, values[i]) {
      assert forall i :: 0 <= i < |ms| ==> Returns(h, values[i], ms[i].value) && Decode(h, ms[i].value) == Some(Normal(values[i]));
    }
  }

  lemma {:induction false} BytesReturn(h: Host, b: seq<nat>)
    requires Sound(h)
    ensures Decode(h, JObject([Member(TAG, JText("bytes")), Member("b64", JText(h.encode64(b)))])) == Some(Bytes(b))
  {
    var ms := [Member(TAG, JText("bytes")), Member("b64", JText(h.encode64(b)))];
    assert |TAG| != |"b64"|;
    FindFirst(ms, TAG, 0);
    FindFirst(ms, "b64", 1);
  }

  lemma {:induction false} TupleReturns(h: Host, items: seq<Value>, js: seq<Json>)
    requires |js| == |items| && forall i :: 0 <= i < |js| ==> Returns(h, items[i], js[i])
    ensures Returns(h, Tuple(items), JObject([Member(TAG, JText("tuple")), Member("items", JList(js))]))
  {
    var ms := [Member(TAG, JText("tuple")), Member("items", JList(js))];
    var j := JObject(ms);
    assert |TAG| != |"items"|;
    FindFirst(ms, TAG, 0);
    FindFirst(ms, "items", 1);
    assert ms[1].value < j;
    ListReturns(h, j, items, js);
    assert Decode(h, j) == DecodeTuple(h, j, ms);
  }

  lemma {:induction false} DictReturns(h: Host, entries: seq<Entry>, ms: seq<Member>)
    requires TextKeys(entries) && |ms| == |entries|
    requires forall i :: 0 <= i < |ms| ==> ms[i].key == entries[i].key.text && Returns(h, entries[i].value, ms[i].value)
    ensures Returns(h, Dict(entries), JObject(ms))
  {
    hide Normal, Faithful, Decode, DecodeMembers;
    var j := JObject(ms);
    assert Find(ms, TAG).None?;
    DictOutcome(h, ms);
    var values := seq(|entries|, i requires 0 <= i < |entries| => entries[i].value);
    assert forall i :: 0 <= i < |entries| ==> values[i] == entries[i].value;
    MembersReturn(h, j, values, ms);
    var all := DecodeMembers(h, j, ms, |ms|);
    var normal := seq(|entries|, i requires 0 <= i < |entries| => Entry(entries[i].key, Normal(entries[i].value)));
    DictParts(h, entries);
    if all.Some? && forall i :: 0 <= i < |values| ==> all.value[i].value == Normal(values[i]) {
      assert all.value == normal;
    }
    if all == Some(normal) {
      assert forall i :: 0 <= i < |values| ==> normal[i].value == Normal(values[i]);
    }
    assert Faithful(h, Dict(entries)) <==> forall i :: 0 <= i < |values| ==> Faithful(h, values[i]);
  }

  lemma {:induction false} RefReturns(h: Host, c: Class)
    ensures DecodeClass(h, ClassRef(c)) == if c.plugin then h.resolve(c.moduleName, c.name) else None
  {
    var ms := ClassRef(c).members;
    assert |"plugin"| == |"module"| && "plugin"[0] != "module"[0] && |"name"| != |"plugin"|;
    FindFirst(ms, "plugin", 0);
    FindFirst(ms, "module", 1);
    FindFirst(ms, "name", 2);
  }

  // A constructor given its own fields, in order, makes the object with those values.
  lemma {:induction false} ConstructOwn(c: Class, d: Class, entries: seq<Entry>)
    requires Distinct(c.fields) && |entries| == |c.fields|
    requires forall i :: 0 <= i < |entries| ==> entries[i].key == Name(c.fields[i])
    ensures Construct(c, entries) == Some(Data(c, seq(|entries|, i requires 0 <= i < |entries| => entries[i].value)))
    ensures d != c && Construct(d, entries).Some? ==> Construct(d, entries).value.cls == d
  {
    forall i | 0 <= i < |entries| ensures IndexOf(entries, c.fields[i]) == Some(i) {
      IndexFirst(entries, c.fields[i], i);
    }
    assert Fits(c, entries);
    assert Construct(c, entries).value.values == seq(|entries|, i requires 0 <= i < |entries| => entries[i].value);
  }

  lemma {:induction false} DataReturns(h: Host, c: Class, values: seq<Value>, inner: seq<Member>)
    requires |values| == |c.fields| == |inner| && Distinct(c.fields)
    requires forall i :: 0 <= i < |inner| ==> inner[i].key == c.fields[i] && Returns(h, values[i], inner[i].value)
    ensures Returns(h, Data(c, values),
      JObject([Member(TAG, JText("dataclass")), Member("class", ClassRef(c)), Member("fields", JObject(inner))]))
  {
    var ms := [Member(TAG, JText("dataclass")), Member("class", ClassRef(c)), Member("fields", JObject(inner))];
    var j := JObject(ms);
    assert |TAG| != |"class"| && |TAG| != |"fields"| && |"class"| != |"fields"|;
    FindFirst(ms, TAG, 0);
    FindFirst(ms, "class", 1);
    FindFirst(ms, "fields", 2);
    RefReturns(h, c);
    assert ms[2].value < j;
    MembersReturn(h, j, values, inner);
    DataDecodes(h, c, values, j, ms, inner);
  }

  lemma DataParts(h: Host, c: Class, values: seq<Value>)
    ensures Normal(Data(c, values)) == Data(c, seq(|values|, i requires 0 <= i < |values| => Normal(values[i])))
    ensures Faithful(h, Data(c, values)) <==>
      c.plugin && h.resolve(c.moduleName, c.name) == Some(c) && forall i :: 0 <= i < |values| ==> Faithful(h, values[i])
  {
  }

  lemma DictParts(h: Host, entries: seq<Entry>)
    ensures Normal(Dict(entries))
      == Dict(seq(|entries|, i requires 0 <= i < |entries| => Entry(entries[i].key, Normal(entries[i].value))))
    ensures Faithful(h, Dict(entries)) <==> forall i :: 0 <= i < |entries| ==> Faithful(h, entries[i].value)
  {
  }

  lemma DataOutcome(h: Host, j: Json, ms: seq<Member>, inner: seq<Member>)
    requires j == JObject(ms) && |ms| == 3 && ms[2].value == JObject(inner)
    requires Get(ms, TAG) == JText("dataclass") && Find(ms, "fields") == Some(2)
    requires forall i :: 0 <= i < |inner| ==> inner[i].value < j
    ensures var d := DecodeClass(h, Get(ms, "class"));
      var all := DecodeMembers(h, j, inner, |inner|);
      Decode(h, j) == if d.None? || all.None? then None else Construct(d.value, all.value)
  {
    hide Construct, DecodeClass, Decode, DecodeMembers;
    DecodesAsData(h, j, ms);
  }

  lemma DecodesAsData(h: Host, j: Json, ms: seq<Member>)
    requires j == JObject(ms) && Get(ms, TAG) == JText("dataclass")
    ensures Decode(h, j) == DecodeData(h, j, ms)
  {
    hide DecodeData, DecodeTuple, DecodeMembers, DecodeAll, Find, Get;
  }

  lemma DictOutcome(h: Host, ms: seq<Member>)
    requires Get(ms, TAG) == Null
    ensures var all := DecodeMembers(h, JObject(ms), ms, |ms|);
      Decode(h, JObject(ms)) == if all.None? then None else Some(Dict(all.value))
  {
  }

  lemma {:induction false} DataDecodes(h: Host, c: Class, values: seq<Value>, j: Json, ms: seq<Member>, inner: seq<Member>)
    requires |values| == |c.fields| == |inner| && Distinct(c.fields)
    requires j == JObject(ms) && |ms| == 3 && ms[2].value == JObject(inner)
    requires Get(ms, TAG) == JText("dataclass") && Get(ms, "class") == ClassRef(c) && Find(ms, "fields") == Some(2)
    requires forall i :: 0 <= i < |inner| ==> inner[i].value < j && inner[i].key == c.fields[i]
    requires DecodeClass(h, ClassRef(c)) == if c.plugin then h.resolve(c.moduleName, c.name) else None
    requires var all := DecodeMembers(h, j, inner, |inner|);
      (all.Some? && forall i :: 0 <= i < |values| ==> all.value[i].value == Normal(values[i]))
      <==> forall i :: 0 <= i < |values| ==> Faithful(h, values[i])
    ensures Returns(h, Data(c, values), j)
  {
    var all := DecodeMembers(h, j, inner, |inner|);
    hide Normal, Faithful, Decode, Construct, DecodeMembers, DecodeClass, Find, Get, ClassRef;
    DataOutcome(h, j, ms, inner);
    DataParts(h, c, values);
    if all.Some? {
      var d := DecodeClass(h, ClassRef(c));
      ConstructOwn(c, if d.Some? then d.value else c, all.value);
      AllNormal(all.value, values);
    }
  }

  lemma AllNormal(entries: seq<Entry>, values: seq<Value>)
    requires |entries| == |values|
    ensures seq(|entries|, i requires 0 <= i < |entries| => entries[i].value)
            == seq(|values|, i requires 0 <= i < |values| => Normal(values[i]))
        <==> forall i :: 0 <= i < |values| ==> entries[i].value == Normal(values[i])
  {
    hide Normal;
    var got := seq(|entries|, i requires 0 <= i < |entries| => entries[i].value);
    var normal := seq(|values|, i requires 0 <= i < |values| => Normal(values[i]));
    if got == normal {
      forall i | 0 <= i < |values| ensures entries[i].value == Normal(values[i]) { assert got[i] == normal[i]; }
    }
  }

  // Encoding and decoding gives back the value, in built-in types, for every nesting of supported
  // values whose dataclasses are the plugin's own, and for no other.
  lemma {:induction false} RoundTrip(h: Host, v: Value)
    requires Sound(h) && Proper(v) && Encodable(v)
    ensures Encode(h, v).Some? && (Decode(h, Encode(h, v).value) == Some(Normal(v)) <==> Faithful(h, v))
    decreases v
  {
    EncodesExactly(h, v);
    match v
    case Tuple(items) =>
      AllEncode(h, v, items, |items|);
      forall i | 0 <= i < |items| { RoundTrip(h, items[i]); }
      var js := EncodeAll(h, v, items, |items|).value;
      assert forall i :: 0 <= i < |js| ==> Returns(h, items[i], js[i]);
      TupleReturns(h, items, js);
    case List(items) =>
      AllEncode(h, v, items, |items|);
      forall i | 0 <= i < |items| { RoundTrip(h, items[i]); }
      var js := EncodeAll(h, v, items, |items|).value;
      assert forall i :: 0 <= i < |js| ==> Returns(h, items[i], js[i]);
      ListReturns(h, JList(js), items, js);
    case Dict(entries) =>
      EntriesEncode(h, v, entries, |entries|);
      forall i | 0 <= i < |entries| { RoundTrip(h, entries[i].value); }
      DictReturns(h, entries, EncodeEntries(h, v, entries, |entries|).value);
    case Data(c, values) =>
      FieldsEncode(h, v, c.fields, values, |values|);
      forall i | 0 <= i < |values| { RoundTrip(h, values[i]); }
      DataReturns(h, c, values, EncodeFields(h, v, c.fields, values, |values|).value);
    case Bytes(b) => BytesReturn(h, b);
    case Buffer(b) => BytesReturn(h, b);
    case Numpy(item) => RoundTrip(h, item);
    case Subclass(base) => RoundTrip(h, base);
    case _ =>
  }

  // The tag is unambiguous: values that encode alike are alike.
  lemma {:induction false} EncodingIsUnambiguous(h: Host, a: Value, b: Value)
    requires Sound(h) && Proper(a) && Proper(b) && Encodable(a) && Encodable(b)
    requires Faithful(h, a) && Faithful(h, b) && Encode(h, a) == Encode(h, b)
    ensures Normal(a) == Normal(b)
  {
    RoundTrip(h, a);
    RoundTrip(h, b);
  }

  // Whatever a worker answers, decoding builds only classes that resolve inside the plugin.
  ghost predicate OnlyResolved(h: Host, v: Value) {
    match v
    case Tuple(items) => forall i :: 0 <= i < |items| ==> OnlyResolved(h, items[i])
    case List(items) => forall i :: 0 <= i < |items| ==> OnlyResolved(h, items[i])
    case Dict(entries) => forall i :: 0 <= i < |entries| ==> OnlyResolved(h, entries[i].value)
    case Data(c, values) =>
      (exists m, n :: h.resolve(m, n) == Some(c)) && forall i :: 0 <= i < |values| ==> OnlyResolved(h, values[i])
    case Numpy(_) => false
    case Subclass(_) => false
    case Buffer(_) => false
    case Unsupported(_) => false
    case _ => true
  }

  lemma {:induction false} DecodesOnlyResolved(h: Host, j: Json)
    requires Decode(h, j).Some?
    ensures OnlyResolved(h, Decode(h, j).value)
    decreases j
  {
    match j
    case JList(items) =>
      DecodedAll(h, j, items, |items|);
      forall i | 0 <= i < |items| { DecodesOnlyResolved(h, items[i]); }
    case JObject(ms) =>
      var kind := Get(ms, TAG);
      if kind == Null {
        DecodedMembers(h, j, ms, |ms|);
        forall i | 0 <= i < |ms| { DecodesOnlyResolved(h, ms[i].value); }
      } else if kind == JText("tuple") {
        var i := Find(ms, "items").value;
        if ms[i].value.JList? {
          var items := ms[i].value.items;
          DecodedAll(h, j, items, |items|);
          forall k | 0 <= k < |items| { DecodesOnlyResolved(h, items[k]); }
        }
      } else if kind == JText("dataclass") {
        var inner := ms[Find(ms, "fields").value].value.members;
        DecodedMembers(h, j, inner, |inner|);
        forall k | 0 <= k < |inner| { DecodesOnlyResolved(h, inner[k].value); }
      }
    case _ =>
  }
}
