/** The portfolio resource's callbacks as they run: each reads and writes the resource data in
    place, rewrites a local copy of the provider's URL step by step and calls the HTTP helper.
    Each is proved to send exactly the requests, return exactly the error and leave exactly the
    data that the matching function of PortfolioApi describes. */
module PortfolioResource {
  import opened GoStrings
  import opened PortfolioSchema
  import opened PortfolioApi

  /** The resource data the host framework hands to every callback. */
  class ResourceData {
    var id: string
    var prior: Attributes
    var config: Attributes

    constructor (id: string, prior: Attributes, config: Attributes)
      ensures Snapshot() == Data(id, prior, config)
    {
      this.id := id;
      this.prior := prior;
      this.config := config;
    }

    function Snapshot(): Data
      reads this
    {
      Data(id, prior, config)
    }

    /** d.HasChange */
    predicate Changed(f: Field)
      reads this
    {
      HasChange(Snapshot(), f)
    }

    /** d.SetId */
    method SetId(v: string)
      modifies this
      ensures Snapshot() == old(Snapshot()).(id := v)
    {
      id := v;
    }

    /** d.Set */
    method Set(f: Field, v: Value)
      modifies this
      ensures Snapshot() == old(Snapshot()).(config := Put(old(config), f, v))
    {
      config := Put(config, f, v);
    }
  }

  /** The provider configuration: the server's base URL and the HTTP client.  The server's
      behaviour is the function `server`; `sent` records every request the client has made. */
  class Provider {
    const url: Url
    const server: Request -> Reply
    var sent: seq<Request>

    constructor (url: Url, server: Request -> Reply)
      ensures this.url == url && this.server == server && sent == []
    {
      this.url := url;
      this.server := server;
      sent := [];
    }

    /** httpRequestHelper */
    method HttpRequest(req: Request) returns (reply: Reply)
      modifies this
      ensures sent == old(sent) + [req]
      ensures reply == server(req)
    {
      sent := sent + [req];
      reply := server(req);
    }
  }

  /** portfolioSetSelectionMode; `url` is a copy, as the Go parameter is passed by value. */
  method SetSelectionMode(d: ResourceData, m: Provider, url: Url) returns (err: Option<Error>)
    modifies m
    ensures m.sent == old(m.sent) + DispatchRun(d.Snapshot(), url, m.server).sent
    ensures err == DispatchRun(d.Snapshot(), url, m.server).err
  {
    ghost var c := d.config;
    var u := url;
    var endpoint: string;
    var mode := d.config.selectionMode;
    if mode == "NONE" {
      endpoint := SET_NONE_ENDPOINT;
      u := u.(query := map["portfolio" := d.config.key]);
    } else if mode == "MANUAL" {
      endpoint := SET_MANUAL_ENDPOINT;
      u := u.(query := map["portfolio" := d.config.key]);
    } else if mode == "TAGS" {
      if !(d.Changed(BranchField) || d.Changed(TagsField)) {
        assert !ModeGuard(d.Snapshot());
        return None;
      }
      endpoint := SET_TAGS_ENDPOINT;
      var tags: seq<string> := [];
      for i := 0 to |d.config.tags|
        invariant tags == d.config.tags[..i]
      {
        tags := tags + [d.config.tags[i]];
      }
      assert tags == d.config.tags;
      var tagsCsv := TagsCsv(tags);
      u := u.(query := map["branch" := d.config.branch, "portfolio" := d.config.key, "tags" := tagsCsv]);
    } else if mode == "REGEXP" {
      if !(d.Changed(BranchField) || d.Changed(RegexpField)) {
        assert !ModeGuard(d.Snapshot());
        return None;
      }
      endpoint := SET_REGEXP_ENDPOINT;
      u := u.(query := map["branch" := d.config.branch, "portfolio" := d.config.key, "regexp" := d.config.regexp]);
    } else if mode == "REST" {
      if !d.Changed(BranchField) {
        assert !ModeGuard(d.Snapshot());
        return None;
      }
      endpoint := SET_REST_ENDPOINT;
      u := u.(query := map["branch" := d.config.branch, "portfolio" := d.config.key]);
    } else {
      assert mode !in SELECTION_MODE_OPTIONS;
      return Some(UnknownSelectionMode);
    }

    assert mode in SELECTION_MODE_OPTIONS && ModeGuard(d.Snapshot());
    assert endpoint == ModeEndpoint(mode) && u.query == ModeQuery(c);
    u := u.(path := TrimSuffix(u.path, "/") + endpoint);

    var reply := m.HttpRequest(Request(Post, u, STATUS_NO_CONTENT, CREATE_CALLER));
    if reply.Failed? {
      return Some(RequestFailed(reply.reason));
    }
    return None;
  }

  /** resourceSonarqubePortfolioRead */
  method Read(d: ResourceData, m: Provider) returns (err: Option<Error>)
    modifies d, m
    ensures m.sent == old(m.sent) + ReadRun(old(d.Snapshot()), m.url, m.server).sent
    ensures d.Snapshot() == ReadRun(old(d.Snapshot()), m.url, m.server).data
    ensures err == ReadRun(old(d.Snapshot()), m.url, m.server).err
  {
    var u := m.url;
    u := u.(path := TrimSuffix(u.path, "/") + SHOW_ENDPOINT);
    u := u.(query := map["key" := d.id]);

    var reply := m.HttpRequest(Request(Get, u, STATUS_OK, READ_CALLER));
    if reply.Failed? {
      return Some(ReadFailed(reply.reason));
    }
    if reply.body.Malformed? {
      return Some(DecodeFailed(READ_CALLER));
    }
    var p := reply.body.portfolio;

    d.SetId(p.key);
    d.Set(KeyField, Text(p.key));
    d.Set(NameField, Text(p.name));
    d.Set(DescriptionField, Text(p.desc));
    d.Set(QualifierField, Text(p.qualifier));
    d.Set(VisibilityField, Text(p.visibility));
    d.Set(SelectionModeField, Text(p.selectionMode));
    d.Set(BranchField, Text(p.branch));
    d.Set(TagsField, List(p.tags));
    d.Set(RegexpField, Text(p.regexp));
    return None;
  }

  /** resourceSonarqubePortfolioCreate */
  method Create(d: ResourceData, m: Provider) returns (err: Option<Error>)
    modifies d, m
    ensures m.sent == old(m.sent) + CreateRun(old(d.Snapshot()), m.url, m.server).sent
    ensures d.Snapshot() == CreateRun(old(d.Snapshot()), m.url, m.server).data
    ensures err == CreateRun(old(d.Snapshot()), m.url, m.server).err
  {
    var u := m.url;
    u := u.(path := TrimSuffix(u.path, "/") + CREATE_ENDPOINT);
    u := u.(query := map["description" := d.config.description, "key" := d.config.key,
                         "name" := d.config.name, "visibility" := d.config.visibility]);

    var reply := m.HttpRequest(Request(Post, u, STATUS_OK, CREATE_CALLER));
    if reply.Failed? {
      return Some(RequestFailed(reply.reason));
    }

    err := SetSelectionMode(d, m, m.url);
    if err.Some? {
      return err;
    }

    if reply.body.Malformed? {
      return Some(DecodeFailed(CREATE_CALLER));
    }
    d.SetId(reply.body.portfolio.key);
    err := Read(d, m);
  }

  /** resourceSonarqubePortfolioUpdate */
  method Update(d: ResourceData, m: Provider) returns (err: Option<Error>)
    modifies d, m
    ensures m.sent == old(m.sent) + UpdateRun(old(d.Snapshot()), m.url, m.server).sent
    ensures d.Snapshot() == UpdateRun(old(d.Snapshot()), m.url, m.server).data
    ensures err == UpdateRun(old(d.Snapshot()), m.url, m.server).err
  {
    var u := m.url;
    if d.Changed(NameField) || d.Changed(DescriptionField) {
      u := u.(path := TrimSuffix(u.path, "/") + UPDATE_ENDPOINT);
      u := u.(query := map["key" := d.id, "description" := d.config.description, "name" := d.config.name]);

      var reply := m.HttpRequest(Request(Post, u, STATUS_OK, UPDATE_CALLER));
      if reply.Failed? {
        return Some(RenameFailed(reply.reason));
      }
    }
    err := UpdateSelectionAndRead(d, m, u);
  }

  /** The part of Update after the name/description call, on the URL that call left behind. */
  method UpdateSelectionAndRead(d: ResourceData, m: Provider, u: Url) returns (err: Option<Error>)
    modifies d, m
    ensures m.sent == old(m.sent) + UpdateTail(old(d.Snapshot()), u, m.url, m.server).sent
    ensures d.Snapshot() == UpdateTail(old(d.Snapshot()), u, m.url, m.server).data
    ensures err == UpdateTail(old(d.Snapshot()), u, m.url, m.server).err
  {
    if d.Changed(SelectionModeField) || d.Changed(BranchField) || d.Changed(TagsField) || d.Changed(RegexpField) {
      var modeErr := SetSelectionMode(d, m, u);
      if modeErr.Some? {
        return Some(SelectionModeFailed(modeErr.value));
      }
    }
    err := Read(d, m);
  }

  /** resourceSonarqubePortfolioDelete */
  method Delete(d: ResourceData, m: Provider) returns (err: Option<Error>)
    modifies m
    ensures m.sent == old(m.sent) + DeleteRun(d.Snapshot(), m.url, m.server).sent
    ensures err == DeleteRun(d.Snapshot(), m.url, m.server).err
  {
    var u := m.url;
    u := u.(path := TrimSuffix(u.path, "/") + DELETE_ENDPOINT);
    u := u.(query := map["key" := d.id]);

    var reply := m.HttpRequest(Request(Post, u, STATUS_NO_CONTENT, DELETE_CALLER));
    if reply.Failed? {
      return Some(RequestFailed(reply.reason));
    }
    return None;
  }

  /** resourceSonarqubePortfolioImport: Read, then the data itself as the only imported resource. */
  method Import(d: ResourceData, m: Provider) returns (imported: seq<ResourceData>, err: Option<Error>)
    modifies d, m
    ensures m.sent == old(m.sent) + ReadRun(old(d.Snapshot()), m.url, m.server).sent
    ensures d.Snapshot() == ReadRun(old(d.Snapshot()), m.url, m.server).data
    ensures err == ReadRun(old(d.Snapshot()), m.url, m.server).err
    ensures imported == if err.None? then [d] else []
  {
    err := Read(d, m);
    if err.Some? {
      return [], err;
    }
    return [d], None;
  }
}
