/**
 * The `Setting` schema: a union of nine shapes told apart by the literal in
 * `name`, each with its own `value` object, and the list `SettingNames` of
 * those literals.
 */
module Setting {
  import opened Wrappers
  import opened Json

  /** A setting that passed validation, one constructor per option of the union, in declaration order. */
  datatype Setting =
    | GdriveCredential(refreshToken: string, email: string)
    | GdriveRoot(rootId: string)
    | GdriveTemplateDocument(documentId: string)
    | GdriveTemplateSpreadsheet(spreadsheetId: string)
    | DiscordBot(token: string)
    | DiscordGuild(guildId: string, guildName: string)
    | EmailBranding(
        from: Option<string>,
        enrollAccountMessageSubjectTemplate: Option<string>,
        enrollAccountMessageTemplate: Option<string>,
        existingJoinMessageSubjectTemplate: Option<string>,
        existingJoinMessageTemplate: Option<string>)
    | Teamname(teamName: string)
    | GoogleScript(sharedSecret: string, scriptId: string, contentHash: string, endpointUrl: Option<string>)

  /** `SettingNames`: the `name` literal of every option, in declaration order. */
  const SettingNames: seq<string> := [
    "gdrive.credential",
    "gdrive.root",
    "gdrive.template.document",
    "gdrive.template.spreadsheet",
    "discord.bot",
    "discord.guild",
    "email.branding",
    "teamname",
    "google.script"
  ]

  /** The option of the union a setting belongs to, one per `name` literal. */
  datatype Kind =
    | KGdriveCredential | KGdriveRoot | KGdriveTemplateDocument | KGdriveTemplateSpreadsheet
    | KDiscordBot | KDiscordGuild | KEmailBranding | KTeamname | KGoogleScript

  /** The `name` literal of an option. */
  function Literal(k: Kind): string {
    match k
    case KGdriveCredential => "gdrive.credential"
    case KGdriveRoot => "gdrive.root"
    case KGdriveTemplateDocument => "gdrive.template.document"
    case KGdriveTemplateSpreadsheet => "gdrive.template.spreadsheet"
    case KDiscordBot => "discord.bot"
    case KDiscordGuild => "discord.guild"
    case KEmailBranding => "email.branding"
    case KTeamname => "teamname"
    case KGoogleScript => "google.script"
  }

  /** The discriminator check: the option whose literal is `name`, if any. */
  function LookupName(name: string): (r: Option<Kind>)
    ensures r.Some? <==> name in SettingNames
    ensures r.Some? ==> Literal(r.value) == name
  {
    if name == "gdrive.credential" then Some(KGdriveCredential)
    else if name == "gdrive.root" then Some(KGdriveRoot)
    else if name == "gdrive.template.document" then Some(KGdriveTemplateDocument)
    else if name == "gdrive.template.spreadsheet" then Some(KGdriveTemplateSpreadsheet)
    else if name == "discord.bot" then Some(KDiscordBot)
    else if name == "discord.guild" then Some(KDiscordGuild)
    else if name == "email.branding" then Some(KEmailBranding)
    else if name == "teamname" then Some(KTeamname)
    else if name == "google.script" then Some(KGoogleScript)
    else None
  }

  /** Each literal selects its own option. */
  lemma LookupLiteral(k: Kind)
    ensures LookupName(Literal(k)) == Some(k)
  {
    match k
    case KGdriveCredential =>
    case KGdriveRoot =>
    case KGdriveTemplateDocument =>
    case KGdriveTemplateSpreadsheet =>
    case KDiscordBot =>
    case KDiscordGuild =>
    case KEmailBranding =>
    case KTeamname =>
    case KGoogleScript =>
  }

  function KindOf(s: Setting): Kind {
    match s
    case GdriveCredential(_, _) => KGdriveCredential
    case GdriveRoot(_) => KGdriveRoot
    case GdriveTemplateDocument(_) => KGdriveTemplateDocument
    case GdriveTemplateSpreadsheet(_) => KGdriveTemplateSpreadsheet
    case DiscordBot(_) => KDiscordBot
    case DiscordGuild(_, _) => KDiscordGuild
    case EmailBranding(_, _, _, _, _) => KEmailBranding
    case Teamname(_) => KTeamname
    case GoogleScript(_, _, _, _) => KGoogleScript
  }

  /** The discriminator literal of a setting. */
  function Name(s: Setting): string {
    Literal(KindOf(s))
  }

  predicate NonEmptyOpt(o: Option<string>) {
    o.Some? ==> |o.value| > 0
  }

  /** Every `nonEmptyString` of the setting is non-empty. */
  predicate WellFormed(s: Setting) {
    match s
    case GdriveCredential(r, e) => |r| > 0 && |e| > 0
    case GdriveRoot(i) => |i| > 0
    case GdriveTemplateDocument(i) => |i| > 0
    case GdriveTemplateSpreadsheet(i) => |i| > 0
    case DiscordBot(t) => |t| > 0
    case DiscordGuild(i, n) => |i| > 0 && |n| > 0
    case EmailBranding(a, b, c, d, e) => NonEmptyOpt(a) && NonEmptyOpt(b) && NonEmptyOpt(c) && NonEmptyOpt(d) && NonEmptyOpt(e)
    case Teamname(n) => |n| > 0
    case GoogleScript(a, b, c, u) => |a| > 0 && |b| > 0 && |c| > 0 && NonEmptyOpt(u)
  }

  /** The shape the option `k` demands of its `value` object. */
  predicate Shape(k: Kind, value: Value) {
    match k
    case KGdriveCredential => HasNonEmpty(value, "refreshToken") && HasNonEmpty(value, "email")
    case KGdriveRoot => HasNonEmpty(value, "id")
    case KGdriveTemplateDocument => HasNonEmpty(value, "id")
    case KGdriveTemplateSpreadsheet => HasNonEmpty(value, "id")
    case KDiscordBot => HasNonEmpty(value, "token")
    case KDiscordGuild =>
      value.Obj? && "guild" in value.fields &&
      HasNonEmpty(value.fields["guild"], "id") && HasNonEmpty(value.fields["guild"], "name")
    case KEmailBranding =>
      OptionalNonEmpty(value, "from") &&
      OptionalNonEmpty(value, "enrollAccountMessageSubjectTemplate") &&
      OptionalNonEmpty(value, "enrollAccountMessageTemplate") &&
      OptionalNonEmpty(value, "existingJoinMessageSubjectTemplate") &&
      OptionalNonEmpty(value, "existingJoinMessageTemplate")
    case KTeamname => HasNonEmpty(value, "teamName")
    case KGoogleScript =>
      HasNonEmpty(value, "sharedSecret") && HasNonEmpty(value, "scriptId") &&
      HasNonEmpty(value, "contentHash") && OptionalNonEmpty(value, "endpointUrl")
  }

  /** The shape that the option named `name` demands of `value`; false for a name that is not a literal of the union. */
  predicate Conforms(name: string, value: Value) {
    LookupName(name).Some? && Shape(LookupName(name).value, value)
  }

  function Str1(v: Value, key: string): string
    requires HasNonEmpty(v, key)
  {
    v.fields[key].s
  }

  function StrOpt(v: Value, key: string): Option<string>
    requires OptionalNonEmpty(v, key)
  {
    if key in v.fields then Some(v.fields[key].s) else None
  }

  /** One option of the union parses `value`; keys it does not name are stripped. */
  function ParseShape(k: Kind, value: Value): (r: Option<Setting>)
    ensures r.Some? <==> Shape(k, value)
    ensures r.Some? ==> KindOf(r.value) == k && WellFormed(r.value)
  {
    if !Shape(k, value) then None
    else match k
      case KGdriveCredential => Some(GdriveCredential(Str1(value, "refreshToken"), Str1(value, "email")))
      case KGdriveRoot => Some(GdriveRoot(Str1(value, "id")))
      case KGdriveTemplateDocument => Some(GdriveTemplateDocument(Str1(value, "id")))
      case KGdriveTemplateSpreadsheet => Some(GdriveTemplateSpreadsheet(Str1(value, "id")))
      case KDiscordBot => Some(DiscordBot(Str1(value, "token")))
      case KDiscordGuild => Some(DiscordGuild(Str1(value.fields["guild"], "id"), Str1(value.fields["guild"], "name")))
      case KEmailBranding =>
        Some(EmailBranding(
          StrOpt(value, "from"),
          StrOpt(value, "enrollAccountMessageSubjectTemplate"),
          StrOpt(value, "enrollAccountMessageTemplate"),
          StrOpt(value, "existingJoinMessageSubjectTemplate"),
          StrOpt(value, "existingJoinMessageTemplate")))
      case KTeamname => Some(Teamname(Str1(value, "teamName")))
      case KGoogleScript =>
        Some(GoogleScript(Str1(value, "sharedSecret"), Str1(value, "scriptId"), Str1(value, "contentHash"), StrOpt(value, "endpointUrl")))
  }

  /** The option chosen by the discriminator parses `value`. */
  function ParseValue(name: string, value: Value): (r: Option<Setting>)
    ensures r.Some? <==> Conforms(name, value)
    ensures r.Some? ==> Name(r.value) == name && WellFormed(r.value)
  {
    var k := LookupName(name);
    if k.None? then None else ParseShape(k.value, value)
  }

  /** `SettingDiscriminatedUnion.parse(doc)`, with `None` for a rejected document. */
  function Parse(doc: Value): (r: Option<Setting>)
    ensures r.Some? <==>
      doc.Obj? && "name" in doc.fields && doc.fields["name"].Str? && "value" in doc.fields &&
      Conforms(doc.fields["name"].s, doc.fields["value"])
    ensures r.Some? ==> WellFormed(r.value) && doc.fields["name"] == Str(Name(r.value))
  {
    if doc.Obj? && "name" in doc.fields && doc.fields["name"].Str? && "value" in doc.fields
    then ParseValue(doc.fields["name"].s, doc.fields["value"])
    else None
  }

  /** The `value` object a setting is stored with. */
  function EncodeValue(s: Setting): Value {
    match s
    case GdriveCredential(r, e) => Obj(map["refreshToken" := Str(r), "email" := Str(e)])
    case GdriveRoot(i) => Obj(map["id" := Str(i)])
    case GdriveTemplateDocument(i) => Obj(map["id" := Str(i)])
    case GdriveTemplateSpreadsheet(i) => Obj(map["id" := Str(i)])
    case DiscordBot(t) => Obj(map["token" := Str(t)])
    case DiscordGuild(i, n) => Obj(map["guild" := Obj(map["id" := Str(i), "name" := Str(n)])])
    case EmailBranding(a, b, c, d, e) =>
      Obj(OptField(OptField(OptField(OptField(OptField(map[],
        "from", a), "enrollAccountMessageSubjectTemplate", b), "enrollAccountMessageTemplate", c),
        "existingJoinMessageSubjectTemplate", d), "existingJoinMessageTemplate", e))
    case Teamname(n) => Obj(map["teamName" := Str(n)])
    case GoogleScript(a, b, c, u) =>
      Obj(OptField(map["sharedSecret" := Str(a), "scriptId" := Str(b), "contentHash" := Str(c)], "endpointUrl", u))
  }

  /** The document a setting is stored as. */
  function Encode(s: Setting): (v: Value)
    ensures v.Obj? && "name" in v.fields && v.fields["name"] == Str(Name(s))
    ensures "value" in v.fields && v.fields["value"] == EncodeValue(s)
  {
    Obj(map["name" := Str(Name(s)), "value" := EncodeValue(s)])
  }

  /** Every well-formed setting survives storage: validating its document gives it back. */
  lemma ParseEncode(s: Setting)
    requires WellFormed(s)
    ensures Parse(Encode(s)) == Some(s)
  {
    LookupLiteral(KindOf(s));
    ParseShapeEncode(s);
  }

  /** Each option parses the value it stores. */
  lemma ParseShapeEncode(s: Setting)
    requires WellFormed(s)
    ensures ParseShape(KindOf(s), EncodeValue(s)) == Some(s)
  {
    match s
    case EmailBranding(a, b, c, d, e) => BrandingShape(a, b, c, d, e);
    case GoogleScript(x, y, z, u) => ScriptShape(x, y, z, u);
    case _ =>
  }

  lemma BrandingShape(a: Option<string>, b: Option<string>, c: Option<string>, d: Option<string>, e: Option<string>)
    requires WellFormed(EmailBranding(a, b, c, d, e))
    ensures ParseShape(KEmailBranding, EncodeValue(EmailBranding(a, b, c, d, e))) == Some(EmailBranding(a, b, c, d, e))
  {
    var _ := BrandingValue(a, b, c, d, e);
  }

  lemma ScriptShape(x: string, y: string, z: string, u: Option<string>)
    requires WellFormed(GoogleScript(x, y, z, u))
    ensures ParseShape(KGoogleScript, EncodeValue(GoogleScript(x, y, z, u))) == Some(GoogleScript(x, y, z, u))
  {
    ScriptValue(x, y, z, u);
  }

  lemma ParseEncodeBranding(a: Option<string>, b: Option<string>, c: Option<string>, d: Option<string>, e: Option<string>)
    requires WellFormed(EmailBranding(a, b, c, d, e))
    ensures Parse(Encode(EmailBranding(a, b, c, d, e))) == Some(EmailBranding(a, b, c, d, e))
  {
    LookupLiteral(KEmailBranding);
    BrandingShape(a, b, c, d, e);
  }

  /** The stored `email.branding` value holds exactly the optional fields that are present. */
  lemma BrandingValue(a: Option<string>, b: Option<string>, c: Option<string>, d: Option<string>, e: Option<string>)
    returns (v: Value)
    requires WellFormed(EmailBranding(a, b, c, d, e))
    ensures v == EncodeValue(EmailBranding(a, b, c, d, e))
    ensures OptionalNonEmpty(v, "from") && StrOpt(v, "from") == a
    ensures OptionalNonEmpty(v, "enrollAccountMessageSubjectTemplate") && StrOpt(v, "enrollAccountMessageSubjectTemplate") == b
    ensures OptionalNonEmpty(v, "enrollAccountMessageTemplate") && StrOpt(v, "enrollAccountMessageTemplate") == c
    ensures OptionalNonEmpty(v, "existingJoinMessageSubjectTemplate") && StrOpt(v, "existingJoinMessageSubjectTemplate") == d
    ensures OptionalNonEmpty(v, "existingJoinMessageTemplate") && StrOpt(v, "existingJoinMessageTemplate") == e
  {
    var m0: map<string, Value> := map[];
    var m1 := OptField(m0, "from", a);
    var m2 := OptField(m1, "enrollAccountMessageSubjectTemplate", b);
    var m3 := OptField(m2, "enrollAccountMessageTemplate", c);
    var m4 := OptField(m3, "existingJoinMessageSubjectTemplate", d);
    var m5 := OptField(m4, "existingJoinMessageTemplate", e);
    v := Obj(m5);
  }

  /** The stored `google.script` value holds the three secrets and the endpoint exactly when it is present. */
  lemma ScriptValue(x: string, y: string, z: string, u: Option<string>)
    requires WellFormed(GoogleScript(x, y, z, u))
    ensures var v := EncodeValue(GoogleScript(x, y, z, u));
            HasNonEmpty(v, "sharedSecret") && Str1(v, "sharedSecret") == x &&
            HasNonEmpty(v, "scriptId") && Str1(v, "scriptId") == y &&
            HasNonEmpty(v, "contentHash") && Str1(v, "contentHash") == z &&
            OptionalNonEmpty(v, "endpointUrl") && StrOpt(v, "endpointUrl") == u
  {
  }

  lemma ParseEncodeScript(x: string, y: string, z: string, u: Option<string>)
    requires WellFormed(GoogleScript(x, y, z, u))
    ensures Parse(Encode(GoogleScript(x, y, z, u))) == Some(GoogleScript(x, y, z, u))
  {
    LookupLiteral(KGoogleScript);
    ScriptShape(x, y, z, u);
  }

  /** Validating is idempotent: the stripped document of an accepted setting is accepted as the same setting. */
  lemma ParseStrips(doc: Value)
    requires Parse(doc).Some?
    ensures Parse(Encode(Parse(doc).value)) == Parse(doc)
  {
    ParseEncode(Parse(doc).value);
  }

  /** The nine literals are distinct, so a name picks exactly one option. */
  lemma SettingNamesDistinct()
    ensures |SettingNames| == 9
    ensures forall i, j :: 0 <= i < j < |SettingNames| ==> SettingNames[i] != SettingNames[j]
  {
  }

  /** A document validates only with a name from `SettingNames`, and the name says which option it is. */
  lemma ParsedNameListed(doc: Value)
    requires Parse(doc).Some?
    ensures doc.fields["name"].s in SettingNames
    ensures Name(Parse(doc).value) == doc.fields["name"].s
  {
  }
}
