/** The client half of the session detail page: the quick-fix message sent
    to the chat, the two routines that load a schema and a version into the
    page's state, and the choice of what the page renders. The schema type and
    the raw building-schema payload are type parameters; the schema services
    and the schema validator are function parameters. */
module SessionDetailPage {
  import opened JsSemantics

  const QuickFixIntro := "Please fix the following issue pointed out by the QA Agent:\n\n"
  const QuickFixOutro := "\n\nPlease suggest a specific solution to resolve this problem."
  const QuickFixPrefix := QuickFixIntro + "\""
  const QuickFixSuffix := "\"" + QuickFixOutro

  /** `isGenerating` is a memo that always yields false. */
  const IsGenerating := false

  /** The message `handleQuickFix` builds around a review comment. */
  function QuickFixMessage(comment: string): (m: string)
    ensures |m| == |QuickFixPrefix| + |comment| + |QuickFixSuffix|
    ensures m[..|QuickFixPrefix|] == QuickFixPrefix && m[|m| - |QuickFixSuffix|..] == QuickFixSuffix
    ensures m[|QuickFixPrefix|..|m| - |QuickFixSuffix|] == comment
  {
    QuickFixPrefix + comment + QuickFixSuffix
  }

  /** Reads the comment back out of a quick-fix message, or None for a text
      that is not one. */
  function QuickFixComment(message: string): (r: Option<string>)
    ensures r.Some? ==> QuickFixMessage(r.value) == message
  {
    Unwrap(message, QuickFixPrefix, QuickFixSuffix)
  }

  /** The comment is carried verbatim, between double quotes, after the
      fixed request and before the fixed closing sentence, and can be read
      back unchanged. */
  lemma QuickFixRoundTrip(comment: string)
    ensures QuickFixComment(QuickFixMessage(comment)) == Some(comment)
    ensures QuickFixMessage(comment) == QuickFixIntro + ("\"" + comment + "\"") + QuickFixOutro
  {
    UnwrapWrap(QuickFixPrefix, comment, QuickFixSuffix);
    Enclose(QuickFixIntro, "\"", comment, "\"", QuickFixOutro);
  }

  /** No two comments give the same message. */
  lemma QuickFixInjective(a: string, b: string)
    ensures QuickFixMessage(a) == QuickFixMessage(b) ==> a == b
  {
    QuickFixRoundTrip(a);
    QuickFixRoundTrip(b);
  }

  datatype Version = Version(id: string, number: int)

  /** The building-schema row: its id and its unvalidated schema payload. */
  datatype BuildingSchema<Raw> = BuildingSchema(id: string, schema: Raw)

  /** The key `getLatestVersion` is called with: `buildingSchema?.id ?? ''`. */
  function LatestVersionKey<Raw>(building: Option<BuildingSchema<Raw>>): (key: string)
    ensures building.None? ==> key == ""
    ensures building.Some? ==> key == building.value.id
  {
    match building
    case None => ""
    case Some(b) => b.id
  }

  /** The payload handed to `safeParse`: `buildingSchema?.schema`. */
  function RawSchema<Raw>(building: Option<BuildingSchema<Raw>>): (raw: Option<Raw>)
    ensures raw.Some? <==> building.Some?
    ensures raw.Some? ==> raw.value == building.value.schema
  {
    match building
    case None => None
    case Some(b) => Some(b.schema)
  }

  /** What the page renders: the refetch notice, the load failure, or the
      chat column with, when a version is selected, the output column. */
  datatype View =
    | UpdatingSchema
    | FailedToLoadSchema
    | Layout(twoColumns: bool, outputSectionShown: bool, placeholderShown: bool, outputShown: bool)

  /** The render decisions: refetching wins over everything, a missing schema
      over the layout; the version alone decides the columns. */
  function Render<Schema>(isRefetching: bool, currentSchema: Option<Schema>, currentVersion: Option<Version>): (v: View)
    ensures v.UpdatingSchema? <==> isRefetching
    ensures v.FailedToLoadSchema? <==> !isRefetching && currentSchema.None?
    ensures v.Layout? <==> !isRefetching && currentSchema.Some?
    ensures v.Layout? ==>
      && (v.twoColumns <==> currentVersion.Some?)
      && (v.outputSectionShown <==> currentVersion.Some?)
      && (v.outputShown <==> currentVersion.Some?)
      && !v.placeholderShown
  {
    if isRefetching then UpdatingSchema
    else if currentSchema.None? then FailedToLoadSchema
    else
      var hasCurrentVersion := currentVersion.Some?;
      Layout(hasCurrentVersion, hasCurrentVersion,
             hasCurrentVersion && IsGenerating, hasCurrentVersion && !IsGenerating)
  }

  /** The service calls and state updates of the two loading routines, in the
      order they happen. */
  datatype Effect<Schema> =
    | BuildCurrentSchemaCall(designSessionId: string, latestVersionNumber: int)
    | BuildPrevSchemaCall(currentSchema: Option<Schema>, currentVersionId: string)
    | GetBuildingSchemaCall(designSessionId: string)
    | GetLatestVersionCall(buildingSchemaId: string)
    | SetCurrentSchema(schema: Option<Schema>)
    | SetPrevSchema(schema: Option<Schema>)
    | SetCurrentVersion(version: Option<Version>)

  /** The schema update at `j` is the last one before index `i`. */
  ghost predicate LastSchemaUpdateBefore<Schema>(log: seq<Effect<Schema>>, j: int, i: int)
    requires 0 <= i <= |log|
  {
    0 <= j < i && log[j].SetCurrentSchema? && forall k :: j < k < i ==> !log[k].SetCurrentSchema?
  }

  /** Within one routine's log, every previous schema is derived from the
      schema that routine last set the page to show. Runs of the two routines
      that interleave are not described by one log. */
  ghost predicate PrevFromShownSchema<Schema>(log: seq<Effect<Schema>>)
  {
    forall i :: 0 <= i < |log| && log[i].BuildPrevSchemaCall? ==>
      exists j :: LastSchemaUpdateBefore(log, j, i) && log[j].schema == log[i].currentSchema
  }

  /** The state the page keeps. */
  class SessionDetailState<Schema> {
    const designSessionId: string
    var prevSchema: Option<Schema>
    var currentSchema: Option<Schema>
    var currentVersion: Option<Version>
    var quickFixMessage: string

    constructor (sessionId: string, initialSchema: Option<Schema>, initialPrevSchema: Option<Schema>,
                 initialCurrentVersion: Option<Version>)
      ensures designSessionId == sessionId
      ensures currentSchema == initialSchema && prevSchema == initialPrevSchema
      ensures currentVersion == initialCurrentVersion && quickFixMessage == ""
    {
      designSessionId := sessionId;
      currentSchema, prevSchema := initialSchema, initialPrevSchema;
      currentVersion := initialCurrentVersion;
      quickFixMessage := "";
    }

    /** `handleQuickFix`: only the stored message changes, and it carries the
        comment. */
    method HandleQuickFix(comment: string)
      modifies this
      ensures quickFixMessage == QuickFixMessage(comment)
      ensures QuickFixComment(quickFixMessage) == Some(comment)
      ensures prevSchema == old(prevSchema) && currentSchema == old(currentSchema) && currentVersion == old(currentVersion)
    {
      QuickFixRoundTrip(comment);
      quickFixMessage := QuickFixMessage(comment);
    }

    /** `handleChangeCurrentVersion`: build the selected version's schema and
        show it, derive the previous schema from that same schema and the
        version's id, and select the version last. */
    method HandleChangeCurrentVersion(
      version: Version,
      buildCurrentSchema: (string, int) -> Option<Schema>,
      buildPrevSchema: (Option<Schema>, string) -> Option<Schema>)
      returns (log: seq<Effect<Schema>>)
      modifies this
      ensures var schema := buildCurrentSchema(designSessionId, version.number);
        && currentSchema == schema
        && prevSchema == buildPrevSchema(schema, version.id)
        && currentVersion == Some(version)
        && log == [BuildCurrentSchemaCall(designSessionId, version.number), SetCurrentSchema(schema),
                   BuildPrevSchemaCall(schema, version.id), SetPrevSchema(prevSchema),
                   SetCurrentVersion(Some(version))]
      ensures quickFixMessage == old(quickFixMessage)
      ensures PrevFromShownSchema(log) && log[|log| - 1].SetCurrentVersion?
    {
      var schema := buildCurrentSchema(designSessionId, version.number);
      currentSchema := schema;
      log := [BuildCurrentSchemaCall(designSessionId, version.number), SetCurrentSchema(schema)];
      var prev := buildPrevSchema(schema, version.id);
      prevSchema := prev;
      log := log + [BuildPrevSchemaCall(schema, version.id), SetPrevSchema(prev)];
      currentVersion := Some(version);
      log := log + [SetCurrentVersion(Some(version))];
      assert LastSchemaUpdateBefore(log, 1, 2);
    }

    /** `refetchSchemaAndVersion`: the validated building schema, or None when
        it is missing or fails validation, becomes the current schema; the
        latest version of that building schema becomes the current version;
        the previous schema is rebuilt only when both are present. */
    method RefetchSchemaAndVersion<Raw>(
      getBuildingSchema: string -> Option<BuildingSchema<Raw>>,
      parse: Option<Raw> -> Option<Schema>,
      getLatestVersion: string -> Option<Version>,
      buildPrevSchema: (Option<Schema>, string) -> Option<Schema>)
      returns (log: seq<Effect<Schema>>)
      modifies this
      ensures var building := getBuildingSchema(designSessionId);
        && currentSchema == parse(RawSchema(building))
        && currentVersion == getLatestVersion(LatestVersionKey(building))
        && |log| >= 4 && log[..4] == [GetBuildingSchemaCall(designSessionId), SetCurrentSchema(currentSchema),
                        GetLatestVersionCall(LatestVersionKey(building)), SetCurrentVersion(currentVersion)]
      ensures currentSchema.None? || currentVersion.None? ==> prevSchema == old(prevSchema) && |log| == 4
      ensures currentSchema.Some? && currentVersion.Some? ==>
        && prevSchema == buildPrevSchema(currentSchema, currentVersion.value.id)
        && log[4..] == [BuildPrevSchemaCall(currentSchema, currentVersion.value.id), SetPrevSchema(prevSchema)]
      ensures quickFixMessage == old(quickFixMessage)
      ensures PrevFromShownSchema(log)
    {
      var building := getBuildingSchema(designSessionId);
      log := [GetBuildingSchemaCall(designSessionId)];
      var parsed := parse(RawSchema(building));
      currentSchema := parsed;
      log := log + [SetCurrentSchema(parsed)];
      var key := LatestVersionKey(building);
      var latest := getLatestVersion(key);
      currentVersion := latest;
      log := log + [GetLatestVersionCall(key), SetCurrentVersion(latest)];
      if parsed.None? || latest.None? {
        assert forall i :: 0 <= i < |log| ==> !log[i].BuildPrevSchemaCall?;
        return;
      }
      var prev := buildPrevSchema(parsed, latest.value.id);
      prevSchema := prev;
      log := log + [BuildPrevSchemaCall(parsed, latest.value.id), SetPrevSchema(prev)];
      assert LastSchemaUpdateBefore(log, 1, 4);
    }
  }
}
