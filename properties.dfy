/** What the portfolio resource promises: the shape of the tags parameter, which request the
    selection-mode dispatcher sends and when, and the order and content of the requests of Create,
    Read, Update and Delete. */
module PortfolioProperties {
  import opened GoStrings
  import opened PortfolioSchema
  import opened PortfolioApi

  /** A tag the CSV passes through unchanged: not empty, no white space, no brackets. */
  predicate CleanTag(t: string)
  {
    t != [] && NoSpace(t) && Avoids(t, "[]")
  }

  // ---------------------------------------------------------------- the tags parameter

  lemma CsvOfNoTags()
    ensures TagsCsv([]) == ""
  {
    assert Sprint([]) == "[]" + [];
    FieldsSkipWord("[]", [], []);
    TrimEnclosed([], '[', ']', "[]");
  }

  /** When the space-joined tags start and end with a non-space and hold no bracket, the CSV is
      the white-space separated fields of the tags, joined with ",". */
  lemma CsvIsFieldsOfJoinedTags(tags: seq<string>)
    requires var x := Join(tags, " "); x != [] && !IsSpace(x[0]) && !IsSpace(x[|x| - 1]) && Avoids(x, "[]")
    ensures TagsCsv(tags) == Join(Fields(Join(tags, " ")), ",")
  {
    var x := Join(tags, " ");
    var s := Sprint(tags);
    assert s == "[" + x + "]";
    assert s[0] == '[' && !IsSpace('[');
    assert s[1..] == x + "]";
    assert [] + [s[0]] == "[";
    assert Fields(s) == FieldsFrom(x + "]", "[");
    FieldsGlueBack(x, "[", "]");
    FieldsGlueFront(x, [], "[");
    assert "[" + [] == "[";
    var words := Fields(x);
    JoinPrependFirst("[", words, ",");
    JoinAppendLast(PrependFirst("[", words), "]", ",");
    FieldsAvoid(x, [], "[]");
    JoinAvoids(words, ",", "[]");
    TrimEnclosed(Join(words, ","), '[', ']', "[]");
  }

  /** The space-joined clean tags start and end with a non-space and hold no bracket. */
  lemma CleanTagsJoinEdges(tags: seq<string>)
    requires tags != [] && forall i :: 0 <= i < |tags| ==> CleanTag(tags[i])
    ensures var x := Join(tags, " "); x != [] && !IsSpace(x[0]) && !IsSpace(x[|x| - 1]) && Avoids(x, "[]")
  {
    JoinLastChar(tags, " ");
    JoinAvoids(tags, " ", "[]");
    if |tags| > 1 {
      assert Join(tags, " ") == tags[0] + (" " + Join(tags[1..], " "));
    }
    assert Join(tags, " ")[0] == tags[0][0];
  }

  /** Tags without white space and brackets: the CSV is the tags joined with ",". */
  lemma CsvOfCleanTags(tags: seq<string>)
    requires forall i :: 0 <= i < |tags| ==> CleanTag(tags[i])
    ensures TagsCsv(tags) == Join(tags, ",")
  {
    if tags == [] {
      CsvOfNoTags();
    } else {
      CleanTagsJoinEdges(tags);
      FieldsOfJoinedWords(tags);
      CsvIsFieldsOfJoinedTags(tags);
    }
  }

  /** A tag holding white space becomes two entries. */
  lemma CsvSplitsTagAtSpace(a: string, sp: char, b: string)
    requires CleanTag(a) && CleanTag(b) && IsSpace(sp)
    ensures TagsCsv([a + [sp] + b]) == a + "," + b
  {
    var x := a + [sp] + b;
    assert Join([x], " ") == x;
    CleanAroundSpaceEdges(a, [sp], b);
    FieldsAcrossOneSpace(a, sp, b);
    CsvIsFieldsOfJoinedTags([x]);
    assert Join([a, b], ",") == a + "," + b;
  }

  /** Clean text on both sides of a bracket-free middle: non-space edges, no bracket. */
  lemma CleanAroundSpaceEdges(a: string, mid: string, b: string)
    requires CleanTag(a) && CleanTag(b) && Avoids(mid, "[]")
    ensures var x := a + mid + b; x != [] && !IsSpace(x[0]) && !IsSpace(x[|x| - 1]) && Avoids(x, "[]")
  {
    var x := a + mid + b;
    assert x[0] == a[0];
    assert x[|x| - 1] == b[|b| - 1];
    AvoidsConcat(a, mid, "[]");
    AvoidsConcat(a + mid, b, "[]");
  }

  /** The fields of a, one space, b. */
  lemma FieldsAcrossOneSpace(a: string, sp: char, b: string)
    requires CleanTag(a) && CleanTag(b) && IsSpace(sp)
    ensures Fields(a + [sp] + b) == [a, b]
  {
    var rest := [sp] + b;
    assert a + [sp] + b == a + rest;
    FieldsSkipWord(a, rest, []);
    assert [] + a == a;
    assert rest[0] == sp && rest[1..] == b;
    assert FieldsFrom(rest, a) == [a] + FieldsFrom(b, []);
    FieldsSkipWord(b, [], []);
    assert b + [] == b && [] + b == b;
  }

  /** The fields of a, two spaces, b. */
  lemma FieldsAcrossTwoSpaces(a: string, b: string)
    requires CleanTag(a) && CleanTag(b)
    ensures Fields(a + "  " + b) == [a, b]
  {
    var x := a + "  " + b;
    assert x == a + ("  " + b);
    FieldsSkipWord(a, "  " + b, []);
    assert [] + a == a;
    assert ("  " + b)[1..] == " " + b;
    assert FieldsFrom("  " + b, a) == [a] + FieldsFrom(" " + b, []);
    assert (" " + b)[1..] == b;
    assert FieldsFrom(" " + b, []) == FieldsFrom(b, []);
    FieldsSkipWord(b, [], []);
    assert b + [] == b && [] + b == b;
  }

  /** An empty tag between two others disappears, where a plain join would keep it. */
  lemma CsvDropsInnerEmptyTag(a: string, b: string)
    requires CleanTag(a) && CleanTag(b)
    ensures TagsCsv([a, "", b]) == a + "," + b
    ensures Join([a, "", b], ",") == a + ",," + b
  {
    var x := a + "  " + b;
    assert Join([a, "", b], " ") == x by {
      assert Join([a, "", b][1..], " ") == "" + " " + b;
    }
    CleanAroundSpaceEdges(a, "  ", b);
    FieldsAcrossTwoSpaces(a, b);
    CsvIsFieldsOfJoinedTags([a, "", b]);
    assert Join([a, b], ",") == a + "," + b;
    assert Join([a, "", b][1..], ",") == "" + "," + b;
  }

  /** An empty first tag is not dropped: it leaves a comma in front of the next tag. */
  lemma CsvKeepsCommaOfLeadingEmptyTag(a: string)
    requires CleanTag(a)
    ensures TagsCsv(["", a]) == "," + a
  {
    FieldsAfterLeadingEmptyTag(a);
    assert Join(["[", a + "]"], ",") == ['['] + ("," + a) + [']'] by {
      assert Join(["[", a + "]"][1..], ",") == a + "]";
    }
    AvoidsConcat(",", a, "[]");
    TrimEnclosed("," + a, '[', ']', "[]");
  }

  /** The fields of the printed list ["", a]: the opening bracket alone, then a with the closing one. */
  lemma FieldsAfterLeadingEmptyTag(a: string)
    requires CleanTag(a)
    ensures Fields(Sprint(["", a])) == ["[", a + "]"]
  {
    var rest := " " + (a + "]");
    var s := Sprint(["", a]);
    assert Join(["", a], " ") == " " + a by {
      assert Join(["", a][1..], " ") == a;
    }
    assert s == "[" + rest;
    assert FieldsFrom(s, []) == FieldsFrom(rest, "[") by {
      assert s[0] == '[' && !IsSpace('[') && s[1..] == rest;
      assert [] + [s[0]] == "[";
    }
    assert FieldsFrom(rest, "[") == ["["] + FieldsFrom(a + "]", []) by {
      assert rest[0] == ' ' && rest[1..] == a + "]";
    }
    FieldsSkipWord(a, "]", []);
    assert [] + a == a;
    assert FieldsFrom("]", a) == FieldsFrom([], a + "]") by {
      assert "]"[1..] == [];
    }
  }

  // ---------------------------------------------------------------- validators and dispatcher

  /** The dispatcher fails on exactly the modes the validator rejects. */
  lemma DispatchFailsExactlyOnRejectedModes(d: Data, url: Url, key: string)
    ensures SelectionModeCall(d, url).Unknown? <==> ValidateSelectionMode(d.config.selectionMode, key).errors != []
  {
    var mode := d.config.selectionMode;
    if ValidateSelectionMode(mode, key).errors == [] {
      var m: SelectionMode :| m.Name() == mode;
      match m
      case NoneMode =>
      case ManualMode =>
      case TagsMode =>
      case RegexpMode =>
      case RestMode =>
    }
  }

  /** When the dispatcher sends nothing, and for which modes it always sends. */
  lemma DispatchDecision(d: Data, url: Url)
    ensures SelectionModeCall(d, url).Unknown? <==> d.config.selectionMode !in SELECTION_MODE_OPTIONS
    ensures SelectionModeCall(d, url).Skipped? <==>
      (d.config.selectionMode == "TAGS" && !HasChange(d, BranchField) && !HasChange(d, TagsField))
      || (d.config.selectionMode == "REGEXP" && !HasChange(d, BranchField) && !HasChange(d, RegexpField))
      || (d.config.selectionMode == "REST" && !HasChange(d, BranchField))
    ensures d.config.selectionMode == "NONE" || d.config.selectionMode == "MANUAL" ==> SelectionModeCall(d, url).Issued?
  {
  }

  /** The request the dispatcher sends: a POST expecting 204, on the incoming path with one
      trailing "/" removed followed by the mode's endpoint, with the mode's parameters. */
  lemma DispatchedRequest(d: Data, url: Url)
    requires SelectionModeCall(d, url).Issued?
    ensures var req := SelectionModeCall(d, url).request;
      var c := d.config;
      && req.verb == Post && req.status == 204
      && req.url.origin == url.origin
      && req.url.path == TrimSuffix(url.path, "/") + ModeEndpoint(c.selectionMode)
      && (c.selectionMode == "NONE" ==> req.url.path == TrimSuffix(url.path, "/") + "/api/views/set_none_mode")
      && (c.selectionMode == "MANUAL" ==> req.url.path == TrimSuffix(url.path, "/") + "/api/views/set_manual_mode")
      && (c.selectionMode == "TAGS" ==> req.url.path == TrimSuffix(url.path, "/") + "/api/views/set_tags_mode")
      && (c.selectionMode == "REGEXP" ==> req.url.path == TrimSuffix(url.path, "/") + "/api/views/set_regexp_mode")
      && (c.selectionMode == "REST" ==> req.url.path == TrimSuffix(url.path, "/") + "/api/views/set_remaining_projects_mode")
      && (c.selectionMode == "NONE" || c.selectionMode == "MANUAL" ==> req.url.query == map["portfolio" := c.key])
      && (c.selectionMode == "TAGS" ==>
            req.url.query == map["branch" := c.branch, "portfolio" := c.key, "tags" := TagsCsv(c.tags)])
      && (c.selectionMode == "REGEXP" ==>
            req.url.query == map["branch" := c.branch, "portfolio" := c.key, "regexp" := c.regexp])
      && (c.selectionMode == "REST" ==> req.url.query == map["branch" := c.branch, "portfolio" := c.key])
  {
  }

  /** The dispatcher sends at most one request, never changes the data, and fails exactly when
      the mode is unknown or its request fails. */
  lemma DispatchSendsAtMostOne(d: Data, url: Url, server: Request -> Reply)
    ensures var call, run := SelectionModeCall(d, url), DispatchRun(d, url, server);
      && run.data == d
      && (call.Issued? ==> run.sent == [call.request])
      && (!call.Issued? ==> run.sent == [])
      && (run.err.Some? <==> call.Unknown? || (call.Issued? && server(call.request).Failed?))
      && (run.err == Some(UnknownSelectionMode) <==> call.Unknown?)
  {
  }

  // ---------------------------------------------------------------- Read, Delete

  /** Read sends one GET to api/views/show?key=<id>; on success it replaces the id and all nine
      attributes by the response's, with "desc" stored as the description; otherwise nothing changes. */
  lemma ReadReplacesState(d: Data, base: Url, server: Request -> Reply)
    ensures var run, req := ReadRun(d, base, server), ShowRequest(base, d.id);
      && req == Request(Get, base.(path := TrimSuffix(base.path, "/") + "/api/views/show", query := map["key" := d.id]),
                        200, READ_CALLER)
      && run.sent == [req]
      && (server(req).Answered? && server(req).body.Json? ==>
            var p, c := server(req).body.portfolio, run.data.config;
            && run.err == None && run.data.id == p.key && run.data.prior == d.prior
            && c.key == p.key && c.name == p.name && c.description == p.desc && c.qualifier == p.qualifier
            && c.visibility == p.visibility && c.selectionMode == p.selectionMode && c.branch == p.branch
            && c.tags == p.tags && c.regexp == p.regexp)
      && (server(req).Failed? ==> run.err == Some(ReadFailed(server(req).reason)) && run.data == d)
      && (server(req) == Answered(Malformed) ==> run.err == Some(DecodeFailed(READ_CALLER)) && run.data == d)
  {
  }

  /** Nothing of the attributes held before a Read survives it: only the id decides what Read does. */
  lemma ReadIgnoresHeldAttributes(d1: Data, d2: Data, base: Url, server: Request -> Reply)
    requires d1.id == d2.id
    ensures ReadRun(d1, base, server).sent == ReadRun(d2, base, server).sent
    ensures ReadRun(d1, base, server).err == ReadRun(d2, base, server).err
    ensures ReadRun(d1, base, server).err.None? ==>
      ReadRun(d1, base, server).data.id == ReadRun(d2, base, server).data.id
      && ReadRun(d1, base, server).data.config == ReadRun(d2, base, server).data.config
  {
  }

  /** Delete sends one POST to api/views/delete?key=<id> expecting 204 and returns its error. */
  lemma DeleteSendsOneRequest(d: Data, base: Url, server: Request -> Reply)
    ensures var run, req := DeleteRun(d, base, server), DeleteRequest(base, d.id);
      && req == Request(Post, base.(path := TrimSuffix(base.path, "/") + "/api/views/delete", query := map["key" := d.id]),
                        204, DELETE_CALLER)
      && run.sent == [req] && run.data == d
      && (run.err.None? <==> server(req).Answered?)
      && (server(req).Failed? ==> run.err == Some(RequestFailed(server(req).reason)))
  {
  }

  // ---------------------------------------------------------------- Create

  /** Create first POSTs api/views/create with description, key, name and visibility, expecting 200;
      when that fails it sends nothing else and changes nothing. */
  lemma CreateSendsCreateFirst(d: Data, base: Url, server: Request -> Reply)
    ensures var run, req := CreateRun(d, base, server), CreateRequest(base, d.config);
      && req == Request(Post, base.(path := TrimSuffix(base.path, "/") + "/api/views/create",
                                    query := map["description" := d.config.description, "key" := d.config.key,
                                                 "name" := d.config.name, "visibility" := d.config.visibility]),
                        200, CREATE_CALLER)
      && run.sent != [] && run.sent[0] == req
      && (server(req).Failed? ==> run == Run([req], Some(RequestFailed(server(req).reason)), d))
  {
  }

  /** After a successful create call, Create sets the selection mode on the provider's base URL
      (not the create URL); then, with the id taken from the create response, it Reads. */
  lemma CreatePlan(d: Data, base: Url, server: Request -> Reply)
    requires server(CreateRequest(base, d.config)).Answered?
    ensures var run, req, call := CreateRun(d, base, server), CreateRequest(base, d.config), SelectionModeCall(d, base);
      var body := server(req).body;
      && (call.Unknown? ==> run == Run([req], Some(UnknownSelectionMode), d))
      && (DispatchRun(d, base, server).err.Some? ==>
            run == Run([req] + DispatchRun(d, base, server).sent, DispatchRun(d, base, server).err, d))
      && (call.Issued? && server(call.request).Failed? ==>
            run == Run([req, call.request], Some(RequestFailed(server(call.request).reason)), d))
      && (call.Issued? ==> |run.sent| >= 2 && run.sent[1] == call.request
                           && call.request.url.path == TrimSuffix(base.path, "/") + ModeEndpoint(d.config.selectionMode))
      && (DispatchRun(d, base, server).err.None? && body.Json? ==>
            run.sent == [req] + DispatchRun(d, base, server).sent + [ShowRequest(base, body.portfolio.key)]
            && run == (var read := ReadRun(d.(id := body.portfolio.key), base, server);
                       Run([req] + DispatchRun(d, base, server).sent + read.sent, read.err, read.data)))
      && (DispatchRun(d, base, server).err.None? && body.Malformed? ==>
            run == Run([req] + DispatchRun(d, base, server).sent, Some(DecodeFailed(CREATE_CALLER)), d))
  {
  }

  /** On Create nothing is stored yet, so a TAGS portfolio with no branch and no tags gets no
      set_tags_mode call: only create and show are sent. */
  lemma CreateSkipsUnchangedTagsMode(d: Data, base: Url, server: Request -> Reply)
    requires d.prior == BLANK && d.config.selectionMode == "TAGS" && d.config.branch == "" && d.config.tags == []
    requires server(CreateRequest(base, d.config)).Answered? && server(CreateRequest(base, d.config)).body.Json?
    ensures CreateRun(d, base, server).sent ==
      [CreateRequest(base, d.config), ShowRequest(base, server(CreateRequest(base, d.config)).body.portfolio.key)]
  {
    assert !HasChange(d, BranchField) && !HasChange(d, TagsField);
    assert SelectionModeCall(d, base) == Skipped;
    assert DispatchRun(d, base, server) == Run([], None, d);
  }

  /** A TAGS portfolio with a branch and clean tags, against a server that accepts every
      request: create, then set_tags_mode with the tags joined by ",", then show. */
  lemma CreateTagsPortfolio(d: Data, base: Url, server: Request -> Reply, p: Portfolio)
    requires d.prior == BLANK && d.config.selectionMode == "TAGS" && d.config.branch != ""
    requires forall i :: 0 <= i < |d.config.tags| ==> CleanTag(d.config.tags[i])
    requires forall req :: server(req).Answered?
    requires server(CreateRequest(base, d.config)) == Answered(Json(p))
    ensures var c := d.config; CreateRun(d, base, server).sent == [
      Request(Post, base.(path := TrimSuffix(base.path, "/") + "/api/views/create",
                          query := map["description" := c.description, "key" := c.key, "name" := c.name,
                                       "visibility" := c.visibility]),
              200, CREATE_CALLER),
      Request(Post, base.(path := TrimSuffix(base.path, "/") + "/api/views/set_tags_mode",
                          query := map["branch" := c.branch, "portfolio" := c.key, "tags" := Join(c.tags, ",")]),
              204, CREATE_CALLER),
      Request(Get, base.(path := TrimSuffix(base.path, "/") + "/api/views/show", query := map["key" := p.key]),
              200, READ_CALLER)]
  {
    CsvOfCleanTags(d.config.tags);
    assert HasChange(d, BranchField);
    var call := SelectionModeCall(d, base);
    assert call.Issued? && DispatchRun(d, base, server) == Run([call.request], None, d);
  }

  // ---------------------------------------------------------------- Update

  /** An Update that changes nothing but key, visibility or qualifier only Reads. */
  lemma UpdateWithoutChangesOnlyReads(d: Data, base: Url, server: Request -> Reply)
    requires forall f :: HasChange(d, f) ==> f == KeyField || f == VisibilityField || f == QualifierField
    ensures UpdateRun(d, base, server) == ReadRun(d, base, server)
    ensures UpdateRun(d, base, server).sent == [ShowRequest(base, d.id)]
  {
    assert !HasChange(d, NameField) && !HasChange(d, DescriptionField);
    assert !HasChange(d, SelectionModeField) && !HasChange(d, BranchField);
    assert !HasChange(d, TagsField) && !HasChange(d, RegexpField);
  }

  /** The name/description call: POST api/views/update with key, description and name (never
      visibility), expecting 200; it is sent, and sent first, exactly when name or description changed. */
  lemma UpdateRenamesIffNameChanged(d: Data, base: Url, server: Request -> Reply)
    ensures var run, req := UpdateRun(d, base, server), RenameRequest(base, d.id, d.config);
      && req == Request(Post, base.(path := TrimSuffix(base.path, "/") + "/api/views/update",
                                    query := map["key" := d.id, "description" := d.config.description, "name" := d.config.name]),
                        200, UPDATE_CALLER)
      && "visibility" !in req.url.query
      && (req in run.sent <==> NameChanged(d))
      && (NameChanged(d) ==> run.sent[0] == req)
      && (NameChanged(d) && server(req).Failed? ==> run == Run([req], Some(RenameFailed(server(req).reason)), d))
  {
    var run, req := UpdateRun(d, base, server), RenameRequest(base, d.id, d.config);
    if !NameChanged(d) {
      var tail := UpdateTail(d, base, base, server);
      assert forall r :: r in tail.sent ==> r.status == 204 || r.verb == Get;
    }
  }

  /** The URL the dispatcher builds on in Update: the name/description call's when that was sent. */
  function UpdateModeUrl(d: Data, base: Url): Url
  {
    if NameChanged(d) then RenameUrl(base, d.id, d.config) else base
  }

  /** A successful Update sends, in this order: the name/description call if name or description
      changed; the selection-mode request if selection_mode, branch, tags or regexp changed and
      the dispatcher's guard lets it through; and the show request of Read. */
  lemma UpdateOrder(d: Data, base: Url, server: Request -> Reply)
    requires UpdateRun(d, base, server).err.None?
    ensures var call := SelectionModeCall(d, UpdateModeUrl(d, base));
      UpdateRun(d, base, server).sent ==
        (if NameChanged(d) then [RenameRequest(base, d.id, d.config)] else [])
        + (if SelectionChanged(d) && call.Issued? then [call.request] else [])
        + [ShowRequest(base, d.id)]
  {
  }

  /** Once the name/description call and the dispatcher have succeeded, Update ends with Read:
      its error and its resulting data are Read's, and its requests end with Read's, whether or
      not that Read succeeds. */
  lemma UpdateEndsWithRead(d: Data, base: Url, server: Request -> Reply)
    requires NameChanged(d) ==> server(RenameRequest(base, d.id, d.config)).Answered?
    requires SelectionChanged(d) ==> DispatchRun(d, UpdateModeUrl(d, base), server).err.None?
    ensures var run, read, call := UpdateRun(d, base, server), ReadRun(d, base, server), SelectionModeCall(d, UpdateModeUrl(d, base));
      && run.err == read.err
      && run.data == read.data
      && run.sent ==
           (if NameChanged(d) then [RenameRequest(base, d.id, d.config)] else [])
           + (if SelectionChanged(d) && call.Issued? then [call.request] else [])
           + read.sent
  {
  }

  /** A failing selection-mode step ends Update: the dispatcher's error comes back wrapped, the
      data is unchanged, and Read's show request is never sent.  When the dispatcher's request
      itself failed, the error is the helper's, wrapped twice. */
  lemma UpdateStopsOnFailedSelectionMode(d: Data, base: Url, server: Request -> Reply)
    requires NameChanged(d) ==> server(RenameRequest(base, d.id, d.config)).Answered?
    requires SelectionChanged(d) && DispatchRun(d, UpdateModeUrl(d, base), server).err.Some?
    ensures var run, mode := UpdateRun(d, base, server), DispatchRun(d, UpdateModeUrl(d, base), server);
      var call := SelectionModeCall(d, UpdateModeUrl(d, base));
      && run.err == Some(SelectionModeFailed(mode.err.value))
      && run.sent == (if NameChanged(d) then [RenameRequest(base, d.id, d.config)] else []) + mode.sent
      && run.data == d
      && ShowRequest(base, d.id) !in run.sent
      && (call.Unknown? ==> run.err == Some(SelectionModeFailed(UnknownSelectionMode)))
      && (call.Issued? ==> run.err == Some(SelectionModeFailed(RequestFailed(server(call.request).reason))))
  {
  }

  /** The selection-mode request of Update is sent on the URL Update has already rewritten: when
      name or description changed too, its path is <base>/api/views/update/api/views/set_..._mode. */
  lemma UpdateModePath(d: Data, base: Url, server: Request -> Reply)
    requires SelectionChanged(d)
    requires NameChanged(d) ==> server(RenameRequest(base, d.id, d.config)).Answered?
    requires SelectionModeCall(d, UpdateModeUrl(d, base)).Issued?
    ensures var run, i := UpdateRun(d, base, server), if NameChanged(d) then 1 else 0;
      && |run.sent| > i
      && (NameChanged(d) ==>
            run.sent[i].url.path == TrimSuffix(base.path, "/") + "/api/views/update" + ModeEndpoint(d.config.selectionMode))
      && (!NameChanged(d) ==>
            run.sent[i].url.path == TrimSuffix(base.path, "/") + ModeEndpoint(d.config.selectionMode))
  {
    if NameChanged(d) {
      TrimSlashNoop(TrimSuffix(base.path, "/"), UPDATE_ENDPOINT);
    }
  }

  /** Changing only the tags of a TAGS portfolio sends the set_tags_mode request once, then show;
      the name/description call is never sent. */
  lemma UpdateTagsOnly(d: Data, base: Url, server: Request -> Reply)
    requires d.prior.selectionMode == "TAGS" && d.config.selectionMode == "TAGS"
    requires HasChange(d, TagsField) && !NameChanged(d)
    ensures var run, req := UpdateRun(d, base, server), SelectionModeCall(d, base).request;
      && SelectionModeCall(d, base).Issued?
      && req.url.path == TrimSuffix(base.path, "/") + "/api/views/set_tags_mode"
      && run.sent == [req] + (if server(req).Answered? then [ShowRequest(base, d.id)] else [])
      && RenameRequest(base, d.id, d.config) !in run.sent
  {
  }
}
