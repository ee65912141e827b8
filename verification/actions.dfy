/**
  The client's Redux action creators and the id functions its normalizing
  schemas use for devices, properties, attributes, domains, families and
  members.
*/
module Actions {
  import opened Wrappers
  import opened Values
  import Subscription

  const RECEIVE: string := "RECEIVE"
  const ADD_ATTRIBUTE_LISTENER: string := "ADD_ATTRIBUTE_LISTENER"
  const REMOVE_ATTRIBUTE_LISTENER: string := "REMOVE_ATTRIBUTE_LISTENER"
  const CHANGE: string := "CHANGE"
  const CONFIG: string := "CONFIG"

  /** `{type, data}`. */
  datatype Action = Action(actionType: string, data: Json)

  /** The five action types are pairwise distinct, so a reducer tells every creator's actions apart. */
  lemma ActionTypesDistinct()
    ensures RECEIVE != ADD_ATTRIBUTE_LISTENER && RECEIVE != REMOVE_ATTRIBUTE_LISTENER
    ensures RECEIVE != CHANGE && RECEIVE != CONFIG
    ensures ADD_ATTRIBUTE_LISTENER != REMOVE_ATTRIBUTE_LISTENER
    ensures ADD_ATTRIBUTE_LISTENER != CHANGE && ADD_ATTRIBUTE_LISTENER != CONFIG
    ensures REMOVE_ATTRIBUTE_LISTENER != CHANGE && REMOVE_ATTRIBUTE_LISTENER != CONFIG
    ensures CHANGE != CONFIG
  {
  }

  /** What a reducer reads from an action: which creator made it, and from what arguments. */
  datatype Creation =
    | Received(data: Json)
    | Changed(data: Json)
    | Configured(data: Json)
    | ListenerAdded(device: Json, attribute: Json)
    | ListenerRemoved(model: Json)

  /**
    A reducer's reading of an action: its type selects the creator, and the
    listener actions must carry exactly the keys their creator writes.
  */
  function Decode(a: Action): Option<Creation> {
    if a.actionType == RECEIVE then Some(Received(a.data))
    else if a.actionType == CHANGE then Some(Changed(a.data))
    else if a.actionType == CONFIG then Some(Configured(a.data))
    else if a.actionType == ADD_ATTRIBUTE_LISTENER then
      if a.data.JObject? && a.data.fields.Keys == {"device", "attribute"} then
        Some(ListenerAdded(a.data.fields["device"], a.data.fields["attribute"]))
      else None
    else if a.actionType == REMOVE_ATTRIBUTE_LISTENER then
      if a.data.JObject? && a.data.fields.Keys == {"model"} then Some(ListenerRemoved(a.data.fields["model"]))
      else None
    else None
  }

  function ReceiveData(data: Json): (a: Action)
    ensures Decode(a) == Some(Received(data))
  {
    Action(RECEIVE, data)
  }

  function ReceiveChange(data: Json): (a: Action)
    ensures Decode(a) == Some(Changed(data))
  {
    Action(CHANGE, data)
  }

  function ReceiveConfig(data: Json): (a: Action)
    ensures Decode(a) == Some(Configured(data))
  {
    Action(CONFIG, data)
  }

  function AddAttributeListener(device: Json, attribute: Json): (a: Action)
    ensures Decode(a) == Some(ListenerAdded(device, attribute))
    ensures a.data.JObject? && a.data.fields.Keys == {"device", "attribute"}
  {
    var fields := map["device" := device, "attribute" := attribute];
    assert fields.Keys == {"device", "attribute"};
    Action(ADD_ATTRIBUTE_LISTENER, JObject(fields))
  }

  function RemoveAttributeListener(model: Json): (a: Action)
    ensures Decode(a) == Some(ListenerRemoved(model))
    ensures a.data.JObject? && a.data.fields.Keys == {"model"}
  {
    var fields := map["model" := model];
    assert fields.Keys == {"model"};
    Action(REMOVE_ATTRIBUTE_LISTENER, JObject(fields))
  }

  /** The action the matching creator makes. */
  function Create(c: Creation): (a: Action)
    ensures Decode(a) == Some(c)
  {
    match c
    case Received(data) => ReceiveData(data)
    case Changed(data) => ReceiveChange(data)
    case Configured(data) => ReceiveConfig(data)
    case ListenerAdded(device, attribute) => AddAttributeListener(device, attribute)
    case ListenerRemoved(model) => RemoveAttributeListener(model)
  }

  /**
    No two creators make the same action, and no creator makes the same
    action from different arguments.
  */
  lemma CreateInjective(c1: Creation, c2: Creation)
    requires Create(c1) == Create(c2)
    ensures c1 == c2
  {
    assert Decode(Create(c1)) == Some(c1);
  }

  /** Every action a reducer reads as some creator's is exactly the action that creator makes. */
  lemma DecodeCreate(a: Action)
    requires Decode(a).Some?
    ensures Create(Decode(a).value) == a
  {
    if a.actionType == ADD_ATTRIBUTE_LISTENER {
      var fields := map["device" := a.data.fields["device"], "attribute" := a.data.fields["attribute"]];
      assert fields == a.data.fields;
    } else if a.actionType == REMOVE_ATTRIBUTE_LISTENER {
      var fields := map["model" := a.data.fields["model"]];
      assert fields == a.data.fields;
    }
  }

  /** A device or a domain: an entity identified by its name alone. */
  datatype NamedEntity = NamedEntity(name: string)
  datatype Property = Property(device: string, name: string)
  datatype Attribute = Attribute(device: string, name: string)
  datatype Family = Family(domain: string, name: string)
  datatype Member = Member(domain: string, family: string, name: string)

  /** A device's id is its name. */
  function GetName(e: NamedEntity): (r: string)
    ensures NamedEntity(r) == e
  {
    e.name
  }

  /** A domain's id is its name. */
  function GetDomainId(d: NamedEntity): (r: string)
    ensures NamedEntity(r) == d
  {
    d.name
  }

  /** A property's id splits at its last '/' back into device and name when the name holds no '/'. */
  function GetPropertyId(p: Property): (r: string)
    ensures '/' !in p.name ==> Subscription.RSplitSlash(r) == Some((p.device, p.name))
  {
    var id := p.device + "/" + p.name;
    assert '/' !in p.name ==> Subscription.RSplitSlash(id) == Some((p.device, p.name)) by {
      if '/' !in p.name { Subscription.RSplitJoin(p.device, p.name); }
    }
    id
  }

  /**
    The client's attribute id and the server's split of "device/attribute"
    at its last '/' are inverse: splitting an attribute's id gives back its
    device and name whenever the name holds no '/'.
  */
  function GetAttributeId(a: Attribute): (r: string)
    ensures '/' !in a.name ==> Subscription.RSplitSlash(r) == Some((a.device, a.name))
  {
    var id := a.device + "/" + a.name;
    assert '/' !in a.name ==> Subscription.RSplitSlash(id) == Some((a.device, a.name)) by {
      if '/' !in a.name { Subscription.RSplitJoin(a.device, a.name); }
    }
    id
  }

  /** A family's id splits at its last '/' back into domain and name when the name holds no '/'. */
  function GetFamilyId(f: Family): (r: string)
    ensures '/' !in f.name ==> Subscription.RSplitSlash(r) == Some((f.domain, f.name))
  {
    var id := f.domain + "/" + f.name;
    assert '/' !in f.name ==> Subscription.RSplitSlash(id) == Some((f.domain, f.name)) by {
      if '/' !in f.name { Subscription.RSplitJoin(f.domain, f.name); }
    }
    id
  }

  /**
    A member's id splits at its last '/' into its family's id and its own
    name when the name holds no '/'.
  */
  function GetMemberId(m: Member): (r: string)
    ensures '/' !in m.name ==> Subscription.RSplitSlash(r) == Some((GetFamilyId(Family(m.domain, m.family)), m.name))
  {
    var family := GetFamilyId(Family(m.domain, m.family));
    var id := m.domain + "/" + m.family + "/" + m.name;
    assert id == family + "/" + m.name;
    assert '/' !in m.name ==> Subscription.RSplitSlash(id) == Some((family, m.name)) by {
      if '/' !in m.name { Subscription.RSplitJoin(family, m.name); }
    }
    id
  }

  /**
    The normalized tables link an attribute to its device by id: splitting
    the id of an attribute of a device at its last '/' gives the device's id.
  */
  lemma AttributeIdNamesDevice(dev: NamedEntity, a: Attribute)
    requires a.device == GetName(dev) && '/' !in a.name
    ensures Subscription.RSplitSlash(GetAttributeId(a)) == Some((GetName(dev), a.name))
  {
  }

  /** Likewise a property leads back to its device's id. */
  lemma PropertyIdNamesDevice(dev: NamedEntity, p: Property)
    requires p.device == GetName(dev) && '/' !in p.name
    ensures Subscription.RSplitSlash(GetPropertyId(p)) == Some((GetName(dev), p.name))
  {
  }

  /** And a family leads back to its domain's id. */
  lemma FamilyIdNamesDomain(d: NamedEntity, f: Family)
    requires f.domain == GetDomainId(d) && '/' !in f.name
    ensures Subscription.RSplitSlash(GetFamilyId(f)) == Some((GetDomainId(d), f.name))
  {
  }

  /** Conversely, a name that splits is the attribute id of the two parts it splits into. */
  lemma SplitIsAttributeId(s: string)
    requires '/' in s
    ensures var parts := Subscription.RSplitSlash(s).value;
      GetAttributeId(Attribute(parts.0, parts.1)) == s && '/' !in parts.1
  {
  }

  /** Attributes whose names hold no '/' have distinct ids. */
  lemma AttributeIdInjective(a: Attribute, b: Attribute)
    requires '/' !in a.name && '/' !in b.name
    requires GetAttributeId(a) == GetAttributeId(b)
    ensures a == b
  {
  }

  /** A '/' in an attribute name lets two attributes share an id. */
  lemma SlashInNameCollides()
    ensures GetAttributeId(Attribute("a", "b/c")) == GetAttributeId(Attribute("a/b", "c"))
  {
  }
}
