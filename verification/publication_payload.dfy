/** The payload that the legacy Publication creation wizard posts, and the
    navigation it performs once the creation request has been answered
    (src/client/components/forms/publication.jsx, handleSubmit and render). */
module PublicationPayload {
  import opened Options

  /** One row as the Aliases step's `getValue()` reports it. The language is
      the raw value of the language selector; `None` stands for `null`. */
  datatype AliasRow = AliasRow(name: string, sortName: string, language: Option<string>)

  /** One alias as it is posted to the creation endpoint. */
  datatype AliasPayload = AliasPayload(
    name: string,
    sortName: string,
    languageId: Option<int>,
    dflt: bool,
    primary: bool)

  /** What the PublicationData step's `getValue()` reports. */
  datatype PublicationFields = PublicationFields(
    publicationType: Option<string>,
    disambiguation: string,
    annotation: string)

  /** The whole body of the creation request. */
  datatype Payload = Payload(
    aliases: seq<AliasPayload>,
    publicationTypeId: Option<int>,
    disambiguation: string,
    annotation: string,
    note: string)

  /** An alias of the creator record from which the form may be prefilled. */
  datatype CreatorAlias = CreatorAlias(name: string, sort_name: string)

  /** The `creator` prop: only its aliases are read. */
  datatype Creator = Creator(aliases: seq<CreatorAlias>)

  /** What render's alias prefill yields: the rows handed to the Aliases step
      (`None` for `null`), or the TypeError thrown by reading `aliases` of an
      absent `creator`. */
  datatype Prefill = Prefilled(rows: Option<seq<AliasRow>>) | CreatorMissing

  /** JavaScript's `parseInt` is not modelled: it is a parameter of type
      `ParseInt`, where `None` stands for `NaN`. */
  type ParseInt = string -> Option<int>

  /** `parseInt` applied to a value that may be `null`; `parseInt(null)` is NaN. */
  function ParseOptional(parseInt: ParseInt, s: Option<string>): (r: Option<int>)
    ensures s.None? ==> r.None?
    ensures s.Some? ==> r == parseInt(s.value)
  {
    match s
    case None => None
    case Some(v) => parseInt(v)
  }

  /** The callback of the alias `map`: every alias is posted as primary and
      as not default. */
  function ToAliasPayload(parseInt: ParseInt, row: AliasRow): (r: AliasPayload)
  {
    AliasPayload(row.name, row.sortName, ParseOptional(parseInt, row.language), false, true)
  }

  /** The alias `map` itself. */
  function MapAliases(parseInt: ParseInt, rows: seq<AliasRow>): (r: seq<AliasPayload>)
    ensures |r| == |rows|
    ensures forall i :: 0 <= i < |rows| ==> r[i] == ToAliasPayload(parseInt, rows[i])
  {
    if rows == [] then [] else [ToAliasPayload(parseInt, rows[0])] + MapAliases(parseInt, rows[1..])
  }

  /** The posted alias list: the mapped rows, with the first one then marked
      as the default alias in place. Length and order are those of the rows;
      every alias is primary; exactly the alias at index 0 is default. */
  function AliasPayloads(parseInt: ParseInt, rows: seq<AliasRow>): (r: seq<AliasPayload>)
    ensures |r| == |rows|
    ensures forall i :: 0 <= i < |rows| ==>
      && r[i].name == rows[i].name
      && r[i].sortName == rows[i].sortName
      && r[i].languageId == ParseOptional(parseInt, rows[i].language)
      && r[i].primary
      && (r[i].dflt <==> i == 0)
  {
    var mapped := MapAliases(parseInt, rows);
    if |mapped| != 0 then mapped[0 := mapped[0].(dflt := true)] else mapped
  }

  /** The request body that handleSubmit assembles from the three steps. */
  function BuildPayload(parseInt: ParseInt, rows: seq<AliasRow>, data: PublicationFields, note: string): (r: Payload)
    ensures r.aliases == AliasPayloads(parseInt, rows)
    ensures r.publicationTypeId == ParseOptional(parseInt, data.publicationType)
    ensures r.disambiguation == data.disambiguation && r.annotation == data.annotation
    ensures r.note == note
  {
    Payload(
      AliasPayloads(parseInt, rows),
      ParseOptional(parseInt, data.publicationType),
      data.disambiguation,
      data.annotation,
      note)
  }

  /** The number of aliases marked default. */
  function DefaultCount(aliases: seq<AliasPayload>): (r: nat)
  {
    if aliases == [] then 0
    else (if aliases[0].dflt then 1 else 0) + DefaultCount(aliases[1..])
  }

  lemma {:induction false} MappedAliasesHaveNoDefault(parseInt: ParseInt, rows: seq<AliasRow>)
    ensures DefaultCount(MapAliases(parseInt, rows)) == 0
  {
    if rows != [] {
      MappedAliasesHaveNoDefault(parseInt, rows[1..]);
    }
  }

  /** The posted list holds exactly one default alias when there is any
      alias at all, and none when the list is empty. */
  lemma {:induction false} ExactlyOneDefault(parseInt: ParseInt, rows: seq<AliasRow>)
    ensures DefaultCount(AliasPayloads(parseInt, rows)) == if rows == [] then 0 else 1
  {
    if rows != [] {
      var r := AliasPayloads(parseInt, rows);
      MappedAliasesHaveNoDefault(parseInt, rows[1..]);
      assert r[1..] == MapAliases(parseInt, rows[1..]);
    }
  }

  /** The rows render hands to the Aliases step. Without a publication there
      are none (`null`). With one, render reads the aliases of the `creator`
      prop, not of the publication: they become rows with `sort_name` renamed
      to `sortName` and no language, and an absent creator makes render throw. */
  function InitialAliases(publication: bool, creator: Option<Creator>): (r: Prefill)
    ensures r == CreatorMissing <==> publication && creator.None?
    ensures !publication ==> r == Prefilled(None)
    ensures publication && creator.Some? ==>
      && r.Prefilled? && r.rows.Some?
      && |r.rows.value| == |creator.value.aliases|
      && forall i :: 0 <= i < |creator.value.aliases| ==>
        r.rows.value[i] == AliasRow(creator.value.aliases[i].name, creator.value.aliases[i].sort_name, None)
  {
    if !publication then Prefilled(None)
    else if creator.None? then CreatorMissing
    else
      var aliases := creator.value.aliases;
      Prefilled(Some(seq(|aliases|, i requires 0 <= i < |aliases| =>
        AliasRow(aliases[i].name, aliases[i].sort_name, None))))
  }

  /** Submitting the prefilled rows unchanged posts the creator's names and
      sort names in their order, with no language, every alias primary and
      only the first default. */
  lemma PrefilledAliasesPosted(parseInt: ParseInt, creatorAliases: seq<CreatorAlias>)
    ensures var posted := AliasPayloads(parseInt, InitialAliases(true, Some(Creator(creatorAliases))).rows.value);
      && |posted| == |creatorAliases|
      && forall i :: 0 <= i < |creatorAliases| ==>
        posted[i] == AliasPayload(creatorAliases[i].name, creatorAliases[i].sort_name, None, i == 0, true)
  {
  }

  // ---------------------------------------------------------------------------
  // The answer to the creation request

  /** The created entity; only its `entity_gid` is read. */
  datatype CreatedEntity = CreatedEntity(entity_gid: string)

  /** The parsed response body; an entity that is missing or falsy is `None`. */
  datatype ResponseBody = ResponseBody(entity: Option<CreatedEntity>)

  /** A response whose `body` may be missing. */
  datatype Response = Response(body: Option<ResponseBody>)

  /** How the browser is sent away: `location.replace(url)` or an assignment
      to `location.href`. */
  datatype Navigation = Replace(url: string) | Assign(url: string)

  const LoginUrl: string := "/login"
  const PublicationPrefix: string := "/publication/"

  /** The navigation performed when the request succeeds: a response with no
      body or no entity is taken to mean that the user is logged out. */
  function RedirectFor(response: Response): (r: Navigation)
    ensures r == Replace(LoginUrl) <==> (response.body.None? || response.body.value.entity.None?)
    ensures r.Assign? <==> (response.body.Some? && response.body.value.entity.Some?)
  {
    if response.body.None? || response.body.value.entity.None? then Replace(LoginUrl)
    else Assign(PublicationPrefix + response.body.value.entity.value.entity_gid)
  }

  /** The identifier of the entity a navigation leads to, if it leads to one. */
  function EntityGidOf(nav: Navigation): (r: Option<string>)
    ensures r.Some? ==> nav.url == PublicationPrefix + r.value
  {
    if nav.Assign? && |PublicationPrefix| <= |nav.url| && nav.url[..|PublicationPrefix|] == PublicationPrefix
    then Some(nav.url[|PublicationPrefix|..])
    else None
  }

  /** A successful creation leads to the page of exactly the entity that the
      server returned; every other success leads to the login page, which is
      never an entity page. */
  lemma RedirectNamesCreatedEntity(response: Response)
    ensures EntityGidOf(RedirectFor(response)) ==
      if response.body.Some? && response.body.value.entity.Some?
      then Some(response.body.value.entity.value.entity_gid)
      else None
  {
  }
}
