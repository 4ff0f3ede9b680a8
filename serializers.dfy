/** backend/api/serializers.py: the JSON representations of users, equipment records and
    upload sessions, each a fixed list of fields. A JSON object is its ordered field list. */
module Serializers {
  import opened Wrappers
  import opened Models

  datatype Json =
    | JNull
    | JBool(b: bool)
    | JInt(i: int)
    | JNum(r: real)
    | JStr(s: string)
    | JArr(elems: seq<Json>)
    | JObj(fields: seq<(string, Json)>)

  /** The keys of an object's fields, in order. */
  function Keys(fields: seq<(string, Json)>): (ks: seq<string>)
    ensures |ks| == |fields| && forall i :: 0 <= i < |fields| ==> ks[i] == fields[i].0
  {
    seq(|fields|, i requires 0 <= i < |fields| => fields[i].0)
  }

  const UserFields: seq<string> := ["id", "username", "email"]
  const ItemFields: seq<string> := ["id", "name", "equipment_type", "flowrate", "pressure", "temperature"]
  const SessionFields: seq<string> := ["id", "created_at", "file_name", "total_count", "avg_flowrate",
                                       "avg_pressure", "avg_temperature", "equipment_distribution", "equipment_items"]

  /** `UserSerializer(user).data`: id, username and email, and so never the password. */
  function UserJson(u: AuthUser): (j: Json)
    ensures j.JObj? && Keys(j.fields) == UserFields
    ensures j.fields[0].1 == JInt(u.id) && j.fields[1].1 == JStr(u.username) && j.fields[2].1 == JStr(u.email)
    ensures "password" !in Keys(j.fields)
  {
    var j := JObj([("id", JInt(u.id)), ("username", JStr(u.username)), ("email", JStr(u.email))]);
    assert Keys(j.fields) == UserFields;
    j
  }

  /** `EquipmentDataSerializer(item).data`: the record without its session link. */
  function ItemJson(e: EquipmentData): (j: Json)
    ensures j.JObj? && Keys(j.fields) == ItemFields
    ensures j.fields[0].1 == JInt(e.id) && j.fields[1].1 == JStr(e.name) && j.fields[2].1 == JStr(e.equipmentType)
    ensures j.fields[3].1 == JNum(e.flowrate) && j.fields[4].1 == JNum(e.pressure) && j.fields[5].1 == JNum(e.temperature)
    ensures "session" !in Keys(j.fields)
  {
    var j := JObj([("id", JInt(e.id)), ("name", JStr(e.name)), ("equipment_type", JStr(e.equipmentType)),
                   ("flowrate", JNum(e.flowrate)), ("pressure", JNum(e.pressure)),
                   ("temperature", JNum(e.temperature))]);
    assert Keys(j.fields) == ItemFields;
    j
  }

  /** The distribution column as a JSON object, keys in the stored order. */
  function DistributionJson(d: seq<(string, nat)>): (j: Json)
    ensures j.JObj? && Keys(j.fields) == seq(|d|, i requires 0 <= i < |d| => d[i].0)
    ensures forall i :: 0 <= i < |d| ==> j.fields[i].1 == JInt(d[i].1)
  {
    JObj(seq(|d|, i requires 0 <= i < |d| => (d[i].0, JInt(d[i].1))))
  }

  /** The items of one session, in table order: the related manager `equipment_items`. */
  function ItemsOf(items: seq<EquipmentData>, session: nat): (r: seq<EquipmentData>)
    ensures |r| <= |items|
    ensures forall i :: 0 <= i < |r| ==> r[i].session == session && r[i] in items
    ensures forall e :: e in items && e.session == session ==> e in r
  {
    if |items| == 0 then []
    else
      var rest := ItemsOf(items[1..], session);
      assert forall e :: e in items ==> e == items[0] || e in items[1..];
      if items[0].session == session then [items[0]] + rest else rest
  }

  /** `UploadSessionSerializer(session).data`. */
  function SessionJson(s: UploadSession, items: seq<EquipmentData>): Json {
    var own := ItemsOf(items, s.id);
    JObj([("id", JInt(s.id)), ("created_at", JStr(s.createdAt.isoText)), ("file_name", JStr(s.fileName)),
          ("total_count", JInt(s.totalCount)), ("avg_flowrate", JNum(s.avgFlowrate)),
          ("avg_pressure", JNum(s.avgPressure)), ("avg_temperature", JNum(s.avgTemperature)),
          ("equipment_distribution", DistributionJson(s.equipmentDistribution)),
          ("equipment_items", JArr(seq(|own|, i requires 0 <= i < |own| => ItemJson(own[i]))))])
  }

  /** A session's representation has the nine fields in order, never the owning user, and
      nests exactly the records of that session. */
  lemma SessionJsonFields(s: UploadSession, items: seq<EquipmentData>)
    ensures var j := SessionJson(s, items);
            && j.JObj? && Keys(j.fields) == SessionFields
            && j.fields[0].1 == JInt(s.id) && j.fields[1].1 == JStr(s.createdAt.isoText)
            && j.fields[2].1 == JStr(s.fileName) && j.fields[3].1 == JInt(s.totalCount)
            && j.fields[4].1 == JNum(s.avgFlowrate) && j.fields[5].1 == JNum(s.avgPressure)
            && j.fields[6].1 == JNum(s.avgTemperature)
            && j.fields[7].1 == DistributionJson(s.equipmentDistribution)
            && j.fields[8].1.JArr? && |j.fields[8].1.elems| == |ItemsOf(items, s.id)|
            && (forall i :: 0 <= i < |ItemsOf(items, s.id)| ==> j.fields[8].1.elems[i] == ItemJson(ItemsOf(items, s.id)[i]))
            && "user" !in Keys(j.fields)
  {
    var j := SessionJson(s, items);
    var own := ItemsOf(items, s.id);
    var nested := JArr(seq(|own|, i requires 0 <= i < |own| => ItemJson(own[i])));
    assert j.fields[8].1 == nested;
    assert Keys(j.fields) == SessionFields;
    UserNotASessionField();
  }

  /** None of the nine session fields is the owning user. */
  lemma UserNotASessionField()
    ensures "user" !in SessionFields
  {
    forall i | 0 <= i < |SessionFields|
      ensures SessionFields[i] != "user"
    {
      assert SessionFields[i][0] != 'u';
    }
  }

  /** The session fields input may set: the listed fields minus the read-only ones (`id` and
      `created_at` are not editable, `equipment_items` is declared read-only). */
  const SessionWritable: set<string> :=
    {"file_name", "total_count", "avg_flowrate", "avg_pressure", "avg_temperature", "equipment_distribution"}

  /** The part of a session payload the serializer accepts. */
  function SessionInput(data: map<string, Json>): (accepted: map<string, Json>)
    ensures accepted.Keys <= SessionWritable
    ensures "equipment_items" !in accepted && "id" !in accepted && "created_at" !in accepted
    ensures forall k :: k in data && k in SessionWritable ==> k in accepted && accepted[k] == data[k]
  {
    map k | k in data && k in SessionWritable :: data[k]
  }
}
