/**
  The server configuration file: a JSON object that must hold a string
  "secret" and may hold "required_groups", a collection of group names.
*/
module ConfigFile {
  import opened Wrappers
  import opened Values

  /** The exceptions loading can raise. */
  datatype ConfigFailure =
    | ConfigError(reason: string)
    | NotSubscriptable    // TypeError: the document is not an object, so `data["secret"]` fails
    | NotIterable         // TypeError: `required_groups` is a number, a boolean or null

  const Prefix: string := "Config error: "

  /** The message a ConfigError carries: "Config error: " followed by the reason. */
  function ConfigErrorMessage(reason: string): (m: string)
    ensures |m| == |Prefix| + |reason| && m[..|Prefix|] == Prefix && m[|Prefix|..] == reason
  {
    Prefix + reason
  }

  /** Two ConfigErrors with the same message have the same reason. */
  lemma ConfigErrorMessageInjective(r1: string, r2: string)
    requires ConfigErrorMessage(r1) == ConfigErrorMessage(r2)
    ensures r1 == r2
  {
    assert r1 == ConfigErrorMessage(r1)[|Prefix|..];
  }

  /** The configuration as the source stores it: `required_groups` is whatever the file held. */
  datatype Config = Config(secret: string, requiredGroups: Json)

  /** `data.get("required_groups", [])`. */
  function GroupsField(fields: map<string, Json>): Json {
    if "required_groups" in fields then fields["required_groups"] else JArray([])
  }

  predicate AllStrings(items: seq<Json>) {
    forall i :: 0 <= i < |items| ==> items[i].JString?
  }

  /**
    `all(isinstance(group, str) for group in groups)`, or None for the
    TypeError that iterating a number, a boolean or null raises. Iterating a
    str yields one-character strs and iterating a dict yields its keys, so
    both pass.
  */
  function AllStr(groups: Json): Option<bool> {
    match groups
    case JArray(items) => Some(AllStrings(items))
    case JString(_) => Some(true)
    case JObject(_) => Some(true)
    case _ => None
  }

  /** `Config(file)` on the parsed document, as written. */
  function LoadConfig(data: Json): (r: Result<Config, ConfigFailure>)
    ensures !data.JObject? ==> r == Err(NotSubscriptable)
    ensures data.JObject? && "secret" !in data.fields ==> r == Err(ConfigError("no secret provided"))
    ensures data.JObject? && "secret" in data.fields && !data.fields["secret"].JString? ==>
              r == Err(ConfigError("secret must be a string"))
    ensures data.JObject? && "secret" in data.fields && data.fields["secret"].JString? ==>
              match AllStr(GroupsField(data.fields))
              case None => r == Err(NotIterable)
              case Some(false) => r == Err(ConfigError("required_groups must consist of strings"))
              case Some(true) => r == Ok(Config(data.fields["secret"].s, GroupsField(data.fields)))
  {
    if !data.JObject? then Err(NotSubscriptable)
    else if "secret" !in data.fields then Err(ConfigError("no secret provided"))
    else
      var secret := data.fields["secret"];
      if !secret.JString? then Err(ConfigError("secret must be a string"))
      else
        var groups := GroupsField(data.fields);
        match AllStr(groups)
        case None => Err(NotIterable)
        case Some(false) => Err(ConfigError("required_groups must consist of strings"))
        case Some(true) => Ok(Config(secret.s, groups))
  }

  /** A loaded configuration holds the file's secret, and no "required_groups" means the empty list. */
  lemma LoadConfigStores(data: Json)
    requires LoadConfig(data).Ok?
    ensures data.JObject? && "secret" in data.fields
    ensures data.fields["secret"] == JString(LoadConfig(data).value.secret)
    ensures "required_groups" !in data.fields ==> LoadConfig(data).value.requiredGroups == JArray([])
    ensures "required_groups" in data.fields ==> LoadConfig(data).value.requiredGroups == data.fields["required_groups"]
  {
  }

  /**
    As written, a single string for "required_groups" passes the check
    (iterating it yields one-character strings) and is stored as a string,
    not as a list of group names.
  */
  lemma StringGroupsAccepted()
    ensures LoadConfig(JObject(map["secret" := JString("s"), "required_groups" := JString("admin")]))
         == Ok(Config("s", JString("admin")))
  {
    var fields := map["secret" := JString("s"), "required_groups" := JString("admin")];
    assert GroupsField(fields) == JString("admin");
  }

  /** The configuration with `required_groups` a list of group names. */
  datatype StrictConfig = StrictConfig(secret: string, requiredGroups: seq<string>)

  function Texts(items: seq<Json>): (r: seq<string>)
    requires AllStrings(items)
    ensures |r| == |items| && forall i :: 0 <= i < |items| ==> items[i] == JString(r[i])
  {
    seq(|items|, i requires 0 <= i < |items| => items[i].s)
  }

  /** Loading that requires `required_groups`, when present, to be a list of strings. */
  function LoadStrictConfig(data: Json): Result<StrictConfig, ConfigFailure> {
    if !data.JObject? then Err(NotSubscriptable)
    else if "secret" !in data.fields then Err(ConfigError("no secret provided"))
    else
      var secret := data.fields["secret"];
      if !secret.JString? then Err(ConfigError("secret must be a string"))
      else
        var groups := GroupsField(data.fields);
        if groups.JArray? && AllStrings(groups.items) then Ok(StrictConfig(secret.s, Texts(groups.items)))
        else if groups.JArray? || groups.JString? || groups.JObject? then
          Err(ConfigError("required_groups must consist of strings"))
        else Err(NotIterable)
  }

  /**
    A configuration loaded strictly holds a list of group names, element for
    element the file's list of strings (empty when the key is absent).
  */
  lemma StrictGroupsAreNames(data: Json)
    requires LoadStrictConfig(data).Ok?
    ensures var groups := GroupsField(data.fields);
      && groups.JArray?
      && |groups.items| == |LoadStrictConfig(data).value.requiredGroups|
      && forall i :: 0 <= i < |groups.items| ==> groups.items[i] == JString(LoadStrictConfig(data).value.requiredGroups[i])
  {
  }

  /**
    The strict loader differs from the source's only where "required_groups"
    is a string or an object: everywhere else both succeed together, with the
    same secret and the same groups, or fail with the same error.
  */
  lemma StrictAgreesOnLists(data: Json)
    requires !data.JObject? || !(GroupsField(data.fields).JString? || GroupsField(data.fields).JObject?)
    ensures LoadStrictConfig(data).Ok? <==> LoadConfig(data).Ok?
    ensures LoadStrictConfig(data).Err? ==> LoadStrictConfig(data).error == LoadConfig(data).error
    ensures LoadStrictConfig(data).Ok? ==>
      && LoadStrictConfig(data).value.secret == LoadConfig(data).value.secret
      && LoadConfig(data).value.requiredGroups
           == JArray(seq(|LoadStrictConfig(data).value.requiredGroups|,
                         i requires 0 <= i < |LoadStrictConfig(data).value.requiredGroups| =>
                           JString(LoadStrictConfig(data).value.requiredGroups[i])))
  {
    if data.JObject? && "secret" in data.fields && data.fields["secret"].JString? {
      var groups := GroupsField(data.fields);
      if groups.JArray? && AllStrings(groups.items) {
        var names := Texts(groups.items);
        assert groups.items == seq(|names|, i requires 0 <= i < |names| => JString(names[i]));
      }
    }
  }
}
