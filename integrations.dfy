/** The integration handlers: listing (with a built-in catalogue when the
    business has none yet), creating one integration per type, updating its
    configuration, and deleting it. A configuration is checked against the
    rules of its type before it is stored. */
module IntegrationsController {
  import opened Base
  import opened Schema
  import opened Tables
  import opened Storage
  import opened BusinessController

  const INTEGRATION_NOT_FOUND := "Integration not found"

  /** The five types the handlers know. */
  const KNOWN_TYPES: seq<string> := ["twilio", "eleven_labs", "n8n", "stripe", "email"]

  /** How an integration type is shown: its display name, a one-line
      description and an icon colour. */
  datatype Look = Look(name: string, description: string, iconColor: string)

  /** The look of a type; an unknown type is shown under its own name in
      grey. */
  function Display(t: string): (d: Look)
    ensures t !in KNOWN_TYPES ==> d == Look(t, "Integration", "bg-gray-100")
    ensures t in KNOWN_TYPES ==> d.iconColor != "bg-gray-100" && d.description != "Integration"
  {
    if t == "twilio" then Look("Twilio", "Voice call handling", "bg-blue-100")
    else if t == "eleven_labs" then Look("11 Labs", "AI voice responses", "bg-purple-100")
    else if t == "n8n" then Look("n8n", "Workflow automation", "bg-orange-100")
    else if t == "stripe" then Look("Stripe", "Payment processing", "bg-green-100")
    else if t == "email" then Look("Email", "Notifications & reports", "bg-blue-100")
    else Look(t, "Integration", "bg-gray-100")
  }

  /** An integration as the handlers answer with it; the built-in catalogue
      entries carry no configuration. */
  datatype IntegrationView = IntegrationView(
    id: int, name: string, description: string, iconColor: string,
    status: string, integrationType: string, config: Option<Json>)

  function View(i: Integration): (v: IntegrationView)
    ensures v.id == i.id && v.status == i.status && v.integrationType == i.integrationType
    ensures v.config == Some(i.config)
    ensures Look(v.name, v.description, v.iconColor) == Display(i.integrationType)
  {
    var d := Display(i.integrationType);
    IntegrationView(i.id, d.name, d.description, d.iconColor, i.status, i.integrationType, Some(i.config))
  }

  function Views(rs: seq<Integration>): (vs: seq<IntegrationView>)
    ensures |vs| == |rs|
    ensures forall k :: 0 <= k < |rs| ==> vs[k] == View(rs[k])
  {
    seq(|rs|, k requires 0 <= k < |rs| => View(rs[k]))
  }

  function CatalogueEntry(id: int, t: string): IntegrationView {
    var d := Display(t);
    IntegrationView(id, d.name, d.description, d.iconColor, "active", t, None)
  }

  /** What a business without integrations is shown: every known type,
      numbered from 1, as active. */
  const DEFAULT_INTEGRATIONS: seq<IntegrationView> := [
    CatalogueEntry(1, "twilio"), CatalogueEntry(2, "eleven_labs"), CatalogueEntry(3, "n8n"),
    CatalogueEntry(4, "stripe"), CatalogueEntry(5, "email")
  ]

  /** The catalogue lists each known type once, in order, with the look the
      listing gives that type. */
  lemma CatalogueListsKnownTypes()
    ensures |DEFAULT_INTEGRATIONS| == |KNOWN_TYPES| == 5
    ensures forall k :: 0 <= k < 5 ==>
              && DEFAULT_INTEGRATIONS[k].id == k + 1
              && DEFAULT_INTEGRATIONS[k].integrationType == KNOWN_TYPES[k]
              && DEFAULT_INTEGRATIONS[k].status == "active"
              && Look(DEFAULT_INTEGRATIONS[k].name, DEFAULT_INTEGRATIONS[k].description,
                      DEFAULT_INTEGRATIONS[k].iconColor) == Display(KNOWN_TYPES[k])
    ensures forall j, k :: 0 <= j < k < 5 ==> KNOWN_TYPES[j] != KNOWN_TYPES[k]
  {
  }

  // ---------------------------------------------------------- configuration

  /** `config[key]`: only an object has properties. */
  function Field(c: Json, key: string): (r: Option<Json>)
    ensures r.Some? <==> c.JObj? && key in c.fields
  {
    if c.JObj? && key in c.fields then Some(c.fields[key]) else None
  }

  /** `typeof config[key] === "string"`. */
  predicate HasString(c: Json, key: string) {
    Field(c, key).Some? && Field(c, key).value.JStr?
  }

  /** The email rule's extra demand: the address contains an `@`. */
  predicate EmailHasAt(c: Json) {
    HasString(c, "email") && '@' in Field(c, "email").value.s
  }

  /** The string properties the configuration of a type must carry. */
  function RequiredKeys(t: string): seq<string> {
    if t == "twilio" then ["accountSid", "authToken", "phoneNumber"]
    else if t == "eleven_labs" then ["apiKey", "voiceId"]
    else if t == "n8n" then ["webhookUrl"]
    else if t == "stripe" then ["apiKey"]
    else if t == "email" then ["email"]
    else []
  }

  /** The outcome of checking a configuration: accepted, rejected, a type
      the check does not know, or a property read on `null`, which throws. */
  datatype ConfigVerdict = ConfigOk | ConfigBad | UnknownType | ConfigThrows

  /** The configuration rule of each type. `typeof null` is "object", so
      every rule but the email one reads a property of a null configuration
      and throws; the email rule excludes null first. */
  function CheckConfig(t: string, c: Json): (v: ConfigVerdict)
    ensures v == UnknownType <==> t !in KNOWN_TYPES
    ensures v == ConfigThrows <==> t in KNOWN_TYPES && t != "email" && c.JNull?
    ensures v == ConfigOk ==> c.JObj? && forall key :: key in RequiredKeys(t) ==> HasString(c, key)
    ensures v == ConfigOk && t == "email" ==> EmailHasAt(c)
  {
    if t !in KNOWN_TYPES then UnknownType
    else if t == "email" then
      if EmailHasAt(c) then ConfigOk else ConfigBad
    else if c.JNull? then ConfigThrows
    else if forall key :: key in RequiredKeys(t) ==> HasString(c, key) then
      assert HasString(c, RequiredKeys(t)[0]);
      ConfigOk
    else ConfigBad
  }

  /** A configuration object that carries every required property as a
      string (and, for email, an address with an `@`) is accepted. */
  lemma CompleteConfigAccepted(t: string, c: Json)
    requires t in KNOWN_TYPES
    requires forall key :: key in RequiredKeys(t) ==> HasString(c, key)
    requires t == "email" ==> EmailHasAt(c)
    ensures CheckConfig(t, c) == ConfigOk
  {
    assert RequiredKeys(t) != [] by {
      assert t == "twilio" || t == "eleven_labs" || t == "n8n" || t == "stripe" || t == "email";
    }
    assert HasString(c, RequiredKeys(t)[0]);
  }

  /** The types the configuration check knows are exactly the ones the
      listing has a look for. */
  lemma CheckedTypesAreDisplayed(t: string, c: Json)
    ensures CheckConfig(t, c) != UnknownType <==> Display(t).iconColor != "bg-gray-100"
  {
  }

  /** JavaScript truthiness of a JSON value. */
  predicate Truthy(c: Json) {
    match c
    case JNull => false
    case JBool(b) => b
    case JNum(n) => n != 0
    case JStr(s) => s != ""
    case _ => true
  }

  /** A truthy configuration never reaches a property read on null. */
  lemma TruthyConfigNeverThrows(t: string, c: Json)
    requires Truthy(c)
    ensures CheckConfig(t, c) != ConfigThrows
  {
  }

  /** The reply a rejected configuration gets. */
  function ConfigRejection(v: ConfigVerdict): (r: Reply<IntegrationView>)
    requires v != ConfigOk
    ensures v == UnknownType <==> r == Fail(BadRequest, "Invalid integration type")
    ensures v == ConfigBad <==> r == Fail(BadRequest, "Invalid integration configuration")
    ensures v == ConfigThrows <==> r.status == ServerError
  {
    match v
    case UnknownType => Fail(BadRequest, "Invalid integration type")
    case ConfigBad => Fail(BadRequest, "Invalid integration configuration")
    case ConfigThrows => Fail(ServerError, INTERNAL_ERROR)
  }

  // ---------------------------------------------------------------- bodies

  /** An integration body that has the expected shape; `None`: the key is
      absent. */
  datatype IntegrationBody = IntegrationBody(
    businessId: Option<int>, integrationType: Option<string>, config: Option<Json>, status: Option<string>)

  /** A new integration names a business, a type and a configuration. */
  predicate CreateShape(b: IntegrationBody) {
    b.businessId.Some? && b.integrationType.Some? && b.config.Some?
  }

  /** The partial row the update handler stores, as written: every key of
      the body, including an owner and a type. */
  function UpdatePatchAsWritten(b: IntegrationBody): (p: IntegrationPatch)
    ensures p.businessId == b.businessId && p.integrationType == b.integrationType
  {
    IntegrationPatch(b.businessId, b.integrationType, b.config, b.status)
  }

  /** The partial row an update evidently means: the configuration and the
      status; the owner and the type stay. */
  function UpdatePatch(b: IntegrationBody): (p: IntegrationPatch)
    ensures p.businessId.None? && p.integrationType.None?
    ensures p.config == b.config && p.status == b.status
  {
    IntegrationPatch(None, None, b.config, b.status)
  }

  /** As written, an update can give an integration the type of another
      integration of the same business, so the business then holds two of
      that type, and it can hand the integration to another business. */
  lemma UpdateAsWrittenBreaksOnePerType()
    ensures var m := map[1 := Integration(1, 7, "twilio", JObj(map[]), "active", 0, 0),
                         2 := Integration(2, 7, "n8n", JObj(map[]), "active", 0, 0)];
            var retyped := MergeIntegration(m[2], UpdatePatchAsWritten(IntegrationBody(None, Some("twilio"), None, None)), 1);
            var moved := MergeIntegration(m[2], UpdatePatchAsWritten(IntegrationBody(Some(8), None, None, None)), 1);
            && TypesUnique(m) && !TypesUnique(m[2 := retyped])
            && moved.businessId == 8 != m[2].businessId
  {
    var m := map[1 := Integration(1, 7, "twilio", JObj(map[]), "active", 0, 0),
                 2 := Integration(2, 7, "n8n", JObj(map[]), "active", 0, 0)];
    var retyped := MergeIntegration(m[2], UpdatePatchAsWritten(IntegrationBody(None, Some("twilio"), None, None)), 1);
    var m' := m[2 := retyped];
    assert m'[1].businessId == m'[2].businessId && m'[1].integrationType == m'[2].integrationType;
  }

  /** With the intended partial row, an update keeps the integration's owner
      and type, so every business still holds at most one of each type. */
  lemma UpdateKeepsOnePerType(m: map<int, Integration>, id: int, b: IntegrationBody, now: Timestamp)
    requires TypesUnique(m) && id in m
    ensures var r := MergeIntegration(m[id], UpdatePatch(b), now);
            r.businessId == m[id].businessId && r.integrationType == m[id].integrationType
            && TypesUnique(m[id := r])
  {
    var r := MergeIntegration(m[id], UpdatePatch(b), now);
    var m' := m[id := r];
    forall x, y | x in m' && y in m' && m'[x].businessId == m'[y].businessId
                  && m'[x].integrationType == m'[y].integrationType
      ensures x == y
    {
      assert m'[x].businessId == m[x].businessId && m'[x].integrationType == m[x].integrationType;
      assert m'[y].businessId == m[y].businessId && m'[y].integrationType == m[y].integrationType;
    }
  }

  // --------------------------------------------------------------- handlers

  /** The business holds an integration of type `t`. */
  ghost predicate HasType(st: MemStorage, businessId: int, t: string)
    reads st`integrations
  {
    exists k :: k in st.integrations && st.integrations[k].businessId == businessId
                && st.integrations[k].integrationType == t
  }

  /** Looks among the integrations of a business for one of type `t`. */
  method HoldsType(st: MemStorage, businessId: int, t: string) returns (found: bool)
    requires st.Valid()
    ensures found <==> HasType(st, businessId, t)
  {
    var existing := st.GetIntegrationsByBusinessId(businessId);
    var same := FindRow(existing, IntegrationTypeOf, t);
    found := same.Some?;
    if found {
      assert same.value in existing;
    } else {
      forall k | k in st.integrations && st.integrations[k].businessId == businessId
        ensures st.integrations[k].integrationType != t
      {
        assert st.integrations[k] in existing;
      }
    }
  }

  /** The caller's business owns the integration the path id names. */
  ghost predicate OwnsIntegration(st: MemStorage, callerId: int, pathId: Option<int>)
    requires st.Valid()
    reads st
  {
    && OwnBusiness(st, callerId).Some?
    && pathId.Some? && pathId.value in st.integrations
    && st.integrations[pathId.value].businessId == OwnBusiness(st, callerId).value.id
  }

  /** Lists the integrations of the caller's business, or the catalogue of
      known types when it has none. */
  method GetIntegrations(st: MemStorage, callerId: int) returns (reply: Reply<seq<IntegrationView>>)
    requires st.Valid()
    ensures OwnBusiness(st, callerId).None? <==> reply == Fail(NotFound, BUSINESS_NOT_FOUND)
    ensures OwnBusiness(st, callerId).Some? ==>
              var rs := Filter(Rows(st.integrations, st.integrationId), IntegrationOwner, OwnBusiness(st, callerId).value.id);
              && (rs == [] ==> reply == Reply(Ok, Body(DEFAULT_INTEGRATIONS)))
              && (rs != [] ==> reply == Reply(Ok, Body(Views(rs))))
    ensures reply.status == Ok && reply.payload != Body(DEFAULT_INTEGRATIONS) ==>
              forall v :: v in reply.payload.value ==>
                v.id in st.integrations && st.integrations[v.id].businessId == OwnBusiness(st, callerId).value.id
                && v == View(st.integrations[v.id])
  {
    var business := st.GetBusinessByUserId(callerId);
    if business.None? {
      return Fail(NotFound, BUSINESS_NOT_FOUND);
    }
    var rs := st.GetIntegrationsByBusinessId(business.value.id);
    if |rs| == 0 {
      return Reply(Ok, Body(DEFAULT_INTEGRATIONS));
    }
    var vs := Views(rs);
    forall v | v in vs
      ensures v.id in st.integrations && st.integrations[v.id].businessId == business.value.id
              && v == View(st.integrations[v.id])
    {
      var k :| 0 <= k < |vs| && vs[k] == v;
      assert rs[k] in rs;
    }
    reply := Reply(Ok, Body(vs));
  }

  /** Creates an integration of a type the caller's business does not have
      yet, for that business whatever the body names, once its configuration
      passes the rule of its type; every business keeps at most one
      integration of each type. */
  method CreateIntegration(st: MemStorage, callerId: int, body: Option<IntegrationBody>, now: Timestamp)
    returns (reply: Reply<IntegrationView>)
    requires st.Valid() && st.OneIntegrationPerType()
    modifies st`integrations, st`integrationId
    ensures st.Valid() && st.OneIntegrationPerType()
    ensures body.None? || !CreateShape(body.value) ==> reply == Fail(BadRequest, VALIDATION_ERROR)
    ensures body.Some? && CreateShape(body.value) && old(OwnBusiness(st, callerId)).None? ==>
              reply == Fail(NotFound, BUSINESS_NOT_FOUND)
    ensures body.Some? && CreateShape(body.value) && old(OwnBusiness(st, callerId)).Some? ==>
              var t := body.value.integrationType.value;
              var c := body.value.config.value;
              && (old(HasType(st, OwnBusiness(st, callerId).value.id, t)) ==>
                    reply == Fail(BadRequest, "Integration of this type already exists"))
              && (!old(HasType(st, OwnBusiness(st, callerId).value.id, t)) && CheckConfig(t, c) != ConfigOk ==>
                    reply == ConfigRejection(CheckConfig(t, c)))
              && (!old(HasType(st, OwnBusiness(st, callerId).value.id, t)) && CheckConfig(t, c) == ConfigOk ==>
                    var i := IntegrationRow(NewIntegration(old(OwnBusiness(st, callerId)).value.id, t, c, body.value.status),
                                            old(st.integrationId), now);
                    reply == Reply(Created, Body(View(i))) && st.integrations == old(st.integrations)[i.id := i])
    ensures reply.status != Created ==> st.integrations == old(st.integrations) && st.integrationId == old(st.integrationId)
  {
    if body.None? || !CreateShape(body.value) {
      return Fail(BadRequest, VALIDATION_ERROR);
    }
    var t := body.value.integrationType.value;
    var c := body.value.config.value;
    var business := st.GetBusinessByUserId(callerId);
    if business.None? {
      return Fail(NotFound, BUSINESS_NOT_FOUND);
    }
    var taken := HoldsType(st, business.value.id, t);
    if taken {
      return Fail(BadRequest, "Integration of this type already exists");
    }
    var verdict := CheckConfig(t, c);
    if verdict != ConfigOk {
      return ConfigRejection(verdict);
    }
    var i := st.CreateIntegration(NewIntegration(business.value.id, t, c, body.value.status), now);
    reply := Reply(Created, Body(View(i)));
  }

  /** Updates the configuration and status of one integration of the
      caller's business. A truthy new configuration must pass the rule of
      the stored type. Owner and type stay, so every business keeps at most
      one integration of each type. */
  method UpdateIntegration(st: MemStorage, callerId: int, pathId: Option<int>, body: Option<IntegrationBody>,
                           now: Timestamp)
    returns (reply: Reply<IntegrationView>)
    requires st.Valid() && st.OneIntegrationPerType()
    modifies st`integrations
    ensures st.Valid() && st.OneIntegrationPerType()
    ensures body.None? ==> reply == Fail(BadRequest, VALIDATION_ERROR)
    ensures body.Some? && old(OwnBusiness(st, callerId)).None? ==> reply == Fail(NotFound, BUSINESS_NOT_FOUND)
    ensures body.Some? && old(OwnBusiness(st, callerId)).Some? && !old(OwnsIntegration(st, callerId, pathId)) ==>
              reply == Fail(NotFound, INTEGRATION_NOT_FOUND)
    ensures body.Some? && old(OwnsIntegration(st, callerId, pathId)) ==>
              var stored := old(st.integrations)[pathId.value];
              var c := body.value.config;
              && (c.Some? && Truthy(c.value) && CheckConfig(stored.integrationType, c.value) != ConfigOk ==>
                    reply == ConfigRejection(CheckConfig(stored.integrationType, c.value)))
              && (!(c.Some? && Truthy(c.value)) || CheckConfig(stored.integrationType, c.value) == ConfigOk ==>
                    var r := MergeIntegration(stored, UpdatePatch(body.value), now);
                    && reply == Reply(Ok, Body(View(r))) && st.integrations == old(st.integrations)[pathId.value := r]
                    && r.businessId == stored.businessId && r.integrationType == stored.integrationType)
    ensures reply.status != Ok ==> st.integrations == old(st.integrations)
  {
    if body.None? {
      return Fail(BadRequest, VALIDATION_ERROR);
    }
    var business := st.GetBusinessByUserId(callerId);
    if business.None? {
      return Fail(NotFound, BUSINESS_NOT_FOUND);
    }
    if pathId.None? {
      return Fail(NotFound, INTEGRATION_NOT_FOUND);
    }
    var stored := st.GetIntegrationById(pathId.value);
    if stored.None? || stored.value.businessId != business.value.id {
      return Fail(NotFound, INTEGRATION_NOT_FOUND);
    }
    var c := body.value.config;
    if c.Some? && Truthy(c.value) {
      var verdict := CheckConfig(stored.value.integrationType, c.value);
      if verdict != ConfigOk {
        return ConfigRejection(verdict);
      }
    }
    UpdateKeepsOnePerType(st.integrations, pathId.value, body.value, now);
    var updated := st.UpdateIntegration(pathId.value, UpdatePatch(body.value), now);
    reply := Reply(Ok, Body(View(updated.value)));
  }

  /** Deletes one integration of the caller's business and nothing else. */
  method DeleteIntegration(st: MemStorage, callerId: int, pathId: Option<int>) returns (reply: Reply<()>)
    requires st.Valid() && st.OneIntegrationPerType()
    modifies st`integrations
    ensures st.Valid() && st.OneIntegrationPerType()
    ensures old(OwnBusiness(st, callerId)).None? ==> reply == Fail(NotFound, BUSINESS_NOT_FOUND)
    ensures old(OwnBusiness(st, callerId)).Some? && !old(OwnsIntegration(st, callerId, pathId)) ==>
              reply == Fail(NotFound, INTEGRATION_NOT_FOUND)
    ensures reply.status == Ok <==> old(OwnsIntegration(st, callerId, pathId))
    ensures reply.status == Ok ==>
              reply == Notice(Ok, "Integration deleted successfully") && st.integrations == old(st.integrations) - {pathId.value}
    ensures reply.status != Ok ==> st.integrations == old(st.integrations)
  {
    var business := st.GetBusinessByUserId(callerId);
    if business.None? {
      return Fail(NotFound, BUSINESS_NOT_FOUND);
    }
    if pathId.None? {
      return Fail(NotFound, INTEGRATION_NOT_FOUND);
    }
    var stored := st.GetIntegrationById(pathId.value);
    if stored.None? || stored.value.businessId != business.value.id {
      return Fail(NotFound, INTEGRATION_NOT_FOUND);
    }
    var _ := st.DeleteIntegration(pathId.value);
    reply := Notice(Ok, "Integration deleted successfully");
  }
}
