/** `handler` of main.ts: the protected-route gate, the routing table, the
    funding routes and the part of the install route that precedes the
    `git clone`.

    What the handler takes from outside is an input here: the outcome of
    verifying the session token, the two UUIDs that `crypto.randomUUID`
    returns, which call to the document store fails (if any), and the
    number `Number()` makes of the `providerIndex` form field. */
module Server {
  import opened Wrappers
  import opened Funding
  import RepoName
  import ProviderKeys

  /** Submitted form fields; a missing field is absent from the map. */
  type Form = map<string, string>

  const ProtectedRoutes: seq<string> :=
    ["/", "/install", "/funding", "/add-funding", "/add-funding/lnbits",
     "/add-funding/opennode", "/set-default-provider"]

  const LoginPath := "/login"
  const FundingPath := "/funding"
  const LnbitsSetupPath := "/add-funding/lnbits"
  const OpenNodeSetupPath := "/add-funding/opennode"
  const PluginsDir := "./plugins"

  const FieldsRequired := "All fields are required"
  const AddLnbitsFailed := "Failed to add LNbits provider"
  const AddOpenNodeFailed := "Failed to add OpenNode provider"
  const SetDefaultFailed := "Failed to set default provider"

  /** The value of `Number(providerIndex)`: NaN or an integer. */
  datatype IndexValue = NaN | Number(value: int)

  /** Which call to the document store throws during a request: none, the
      read, or the `nth` merge write (counting from 1). */
  datatype StoreFault = NoFault | ReadFails | WriteFails(nth: nat)

  datatype Request = Request(
    verb: string,
    path: string,
    token: Option<string>,     // the `token` cookie
    form: Form,
    providerIndex: IndexValue) // `Number()` of the `providerIndex` field

  /** What the handler learns from outside while serving one request. */
  datatype Oracles = Oracles(
    verifiedUid: Option<string>, // `verifyIdToken(token)`: the uid, or None when it throws
    invoiceUuid: string,         // the UUID behind `providerInvoiceKey`
    adminUuid: string,           // the UUID behind `providerAdminKey`
    fault: StoreFault)

  datatype Route =
    | GetHome | PostInstall | GetSignup | PostSignup | GetLogin | PostLogin | GetLogout
    | GetFunding | GetAddFunding | PostAddFunding | GetAddLnbits | PostAddLnbits
    | GetAddOpenNode | PostAddOpenNode | PostSetDefaultProvider | Unmatched

  datatype Response =
    | Redirect(location: string, status: int)
    | Text(status: int, body: string)
    | Page(view: string)                                 // a rendered template
    | FundingView(providers: seq<Provider>, defaultProvider: string)
    | InstallPlugin(gitUrl: string, pluginPath: string)  // remove, clone and migrate follow
    | Delegated(route: Route)                            // served by code outside this model

  datatype Gate = ToLogin | Proceed(uid: string)

  /** The authentication step that runs before routing. */
  function Authenticate(path: string, token: Option<string>, verifiedUid: Option<string>): (g: Gate)
    ensures g == ToLogin <==>
      path in ProtectedRoutes && (token == None || token == Some("") || verifiedUid == None)
    ensures g.Proceed? && path !in ProtectedRoutes ==> g.uid == ""
    ensures g.Proceed? && path in ProtectedRoutes ==> verifiedUid == Some(g.uid)
  {
    if path !in ProtectedRoutes then Proceed("")
    else if token.None? || token.value == "" then ToLogin
    else if verifiedUid.None? then ToLogin
    else Proceed(verifiedUid.value)
  }

  /** The method and path pairs the handler answers other than with 404,
      each with the route it reaches. */
  const RouteTable: map<(string, string), Route> :=
    map[("GET", "/") := GetHome, ("POST", "/install") := PostInstall,
        ("GET", "/signup") := GetSignup, ("POST", "/signup") := PostSignup,
        ("GET", "/login") := GetLogin, ("POST", "/login") := PostLogin,
        ("GET", "/logout") := GetLogout, ("GET", "/funding") := GetFunding,
        ("GET", "/add-funding") := GetAddFunding, ("POST", "/add-funding") := PostAddFunding,
        ("GET", "/add-funding/lnbits") := GetAddLnbits, ("POST", "/add-funding/lnbits") := PostAddLnbits,
        ("GET", "/add-funding/opennode") := GetAddOpenNode, ("POST", "/add-funding/opennode") := PostAddOpenNode,
        ("POST", "/set-default-provider") := PostSetDefaultProvider]

  /** The routing chain of the handler, in its order. */
  function RouteOf(verb: string, path: string): (r: Route)
    ensures (verb, path) in RouteTable ==> r == RouteTable[(verb, path)]
    ensures (verb, path) !in RouteTable <==> r == Unmatched
    ensures Writes(r) ==> verb == "POST" && path in ProtectedRoutes
  {
    if verb == "GET" && path == "/" then GetHome
    else if verb == "POST" && path == "/install" then PostInstall
    else if verb == "GET" && path == "/signup" then GetSignup
    else if verb == "POST" && path == "/signup" then PostSignup
    else if verb == "GET" && path == "/login" then GetLogin
    else if verb == "POST" && path == "/login" then PostLogin
    else if verb == "GET" && path == "/logout" then GetLogout
    else if verb == "GET" && path == "/funding" then GetFunding
    else if verb == "GET" && path == "/add-funding" then GetAddFunding
    else if verb == "POST" && path == "/add-funding" then PostAddFunding
    else if verb == "GET" && path == "/add-funding/lnbits" then GetAddLnbits
    else if verb == "POST" && path == "/add-funding/lnbits" then PostAddLnbits
    else if verb == "GET" && path == "/add-funding/opennode" then GetAddOpenNode
    else if verb == "POST" && path == "/add-funding/opennode" then PostAddOpenNode
    else if verb == "POST" && path == "/set-default-provider" then PostSetDefaultProvider
    else Unmatched
  }

  /** The routes that write to the document store. */
  predicate Writes(r: Route)
  {
    r == PostAddLnbits || r == PostAddOpenNode || r == PostSetDefaultProvider
  }

  /** Every route that needs a user id sits behind the gate. */
  lemma FundingRoutesProtected(verb: string, path: string)
    requires RouteOf(verb, path) in {GetFunding, PostAddFunding, PostAddLnbits, PostAddOpenNode, PostSetDefaultProvider}
    ensures path in ProtectedRoutes
  {
  }

  /** `formData.get(name)?.toString()` is truthy: present and not empty. */
  predicate Filled(form: Form, name: string)
  {
    name in form && form[name] != ""
  }

  function Field(form: Form, name: string): Option<string>
  {
    if name in form then Some(form[name]) else None
  }

  /** `POST /add-funding`: send the user to the chosen provider's form. */
  function SelectSetup(provider: Option<string>): (r: Response)
    ensures r == Redirect(LnbitsSetupPath, 302) <==> provider == Some(LnbitsTag)
    ensures r == Redirect(OpenNodeSetupPath, 302) <==> provider == Some(OpenNodeTag)
    ensures provider != Some(LnbitsTag) && provider != Some(OpenNodeTag) ==> r.Text? && r.status == 400
  {
    if provider == Some(LnbitsTag) then Redirect(LnbitsSetupPath, 302)
    else if provider == Some(OpenNodeTag) then Redirect(OpenNodeSetupPath, 302)
    else Text(400, "Invalid provider selected")
  }

  /** `POST /install` up to the clone: the URL must be given and name a
      repository, whose single path segment goes under ./plugins. */
  function InstallRequest(form: Form): (r: Response)
    ensures r.InstallPlugin? <==> Filled(form, "gitUrl") && RepoName.GetRepoName(form["gitUrl"]).Ok?
    ensures r.InstallPlugin? ==>
      var prefix := PluginsDir + "/";
      |r.pluginPath| > |prefix| && r.pluginPath[..|prefix|] == prefix &&
      '/' !in r.pluginPath[|prefix|..] && r.gitUrl == form["gitUrl"]
    ensures r.InstallPlugin? ==> r.pluginPath == PluginsDir + "/" + RepoName.GetRepoName(form["gitUrl"]).value
    ensures !r.InstallPlugin? ==> r.Text? && r.status == 400
  {
    if !Filled(form, "gitUrl") then Text(400, "Git URL is required")
    else
      match RepoName.GetRepoName(form["gitUrl"])
      case Err(e) => Text(400, "Invalid Git URL: Error: " + e)
      case Ok(name) =>
        assert (PluginsDir + "/" + name)[|PluginsDir + "/"|..] == name;
        InstallPlugin(form["gitUrl"], PluginsDir + "/" + name)
  }

  /** The single segment under ./plugins may be ".." (or "."), so the
      plugin path can name ./plugins itself or its parent; the install
      step then removes that directory before cloning. */
  lemma InstallPathMayLeavePlugins()
    ensures InstallRequest(map["gitUrl" := "h/.."]) == InstallPlugin("h/..", "./plugins/..")
  {
    RepoName.RepoNameOfDotDot();
    assert PluginsDir + "/" + ".." == "./plugins/..";
  }

  predicate LnbitsFormComplete(form: Form)
  {
    Filled(form, "instanceUrl") && Filled(form, "invoiceKey") && Filled(form, "adminKey")
  }

  predicate OpenNodeFormComplete(form: Form)
  {
    Filled(form, "invoiceKey") && Filled(form, "readApiKey")
  }

  /** The record `POST /add-funding/lnbits` pushes. */
  function LnbitsRecord(form: Form, oracle: Oracles): (r: Provider)
    requires LnbitsFormComplete(form)
    ensures r.Tag() == LnbitsTag
    ensures r.instanceUrl == form["instanceUrl"] && r.invoiceKey == form["invoiceKey"] && r.adminKey == form["adminKey"]
    ensures r.providerInvoiceKey == ProviderKeys.GenerateProviderKey(ProviderKeys.InvoiceKeyPrefix, oracle.invoiceUuid)
    ensures r.providerAdminKey == ProviderKeys.GenerateProviderKey(ProviderKeys.AdminKeyPrefix, oracle.adminUuid)
    ensures ProviderKeys.HasPrefix(r.providerInvoiceKey, ProviderKeys.InvoiceKeyPrefix)
    ensures ProviderKeys.HasPrefix(r.providerAdminKey, ProviderKeys.AdminKeyPrefix)
    ensures r.providerInvoiceKey != r.providerAdminKey
  {
    ProviderKeys.InvoiceAndAdminKeysDiffer(oracle.invoiceUuid, oracle.adminUuid);
    Lnbits(form["instanceUrl"], form["invoiceKey"], form["adminKey"],
           ProviderKeys.GenerateProviderKey(ProviderKeys.InvoiceKeyPrefix, oracle.invoiceUuid),
           ProviderKeys.GenerateProviderKey(ProviderKeys.AdminKeyPrefix, oracle.adminUuid))
  }

  /** The record `POST /add-funding/opennode` pushes. */
  function OpenNodeRecord(form: Form, oracle: Oracles): (r: Provider)
    requires OpenNodeFormComplete(form)
    ensures r.Tag() == OpenNodeTag
    ensures r.invoiceKey == form["invoiceKey"] && r.readApiKey == form["readApiKey"]
    ensures r.providerInvoiceKey == ProviderKeys.GenerateProviderKey(ProviderKeys.InvoiceKeyPrefix, oracle.invoiceUuid)
    ensures r.providerAdminKey == ProviderKeys.GenerateProviderKey(ProviderKeys.AdminKeyPrefix, oracle.adminUuid)
    ensures ProviderKeys.HasPrefix(r.providerInvoiceKey, ProviderKeys.InvoiceKeyPrefix)
    ensures ProviderKeys.HasPrefix(r.providerAdminKey, ProviderKeys.AdminKeyPrefix)
    ensures r.providerInvoiceKey != r.providerAdminKey
  {
    ProviderKeys.InvoiceAndAdminKeysDiffer(oracle.invoiceUuid, oracle.adminUuid);
    OpenNode(form["invoiceKey"], form["readApiKey"],
             ProviderKeys.GenerateProviderKey(ProviderKeys.InvoiceKeyPrefix, oracle.invoiceUuid),
             ProviderKeys.GenerateProviderKey(ProviderKeys.AdminKeyPrefix, oracle.adminUuid))
  }

  /** The add routes reach the redirect: the read and the list write
      succeed, and so does the default write when there is one. */
  predicate AddCompletes(fault: StoreFault, doc: UserDoc)
  {
    !fault.ReadFails? && fault != WriteFails(1) &&
    !(fault == WriteFails(2) && doc.fundingProviders == [])
  }

  /** The shared body of the two add routes: read the document, push the
      record, write the list back, and write the default when the record
      is the first one. */
  method AppendProvider(db: UserStore, uid: string, rec: Provider, fault: StoreFault, failure: string)
    returns (resp: Response)
    modifies db
    ensures AddCompletes(fault, old(db.Read(uid))) ==>
      resp == Redirect(FundingPath, 302) &&
      db.users == old(db.users)[uid := AddProvider(old(db.Read(uid)), rec)]
    ensures fault.ReadFails? || fault == WriteFails(1) ==>
      resp == Text(500, failure) && db.users == old(db.users)
    ensures fault == WriteFails(2) && old(db.Read(uid)).fundingProviders == [] ==>
      resp == Text(500, failure) &&
      db.users == old(db.users)[uid := old(db.Read(uid)).(fundingProviders := [rec])]
  {
    if fault.ReadFails? {
      return Text(500, failure);
    }
    var doc := db.Get(uid);
    var providers := doc.fundingProviders + [rec];
    if fault == WriteFails(1) {
      return Text(500, failure);
    }
    db.SetFundingProviders(uid, providers);
    if |providers| == 1 {
      if fault == WriteFails(2) {
        assert providers == [rec];
        return Text(500, failure);
      }
      db.SetDefaultProvider(uid, rec.Tag());
    }
    resp := Redirect(FundingPath, 302);
  }

  /** `POST /add-funding/lnbits`. */
  method AddLnbits(db: UserStore, uid: string, form: Form, oracle: Oracles) returns (resp: Response)
    modifies db
    ensures !LnbitsFormComplete(form) ==>
      resp == Text(400, FieldsRequired) && db.users == old(db.users)
    ensures LnbitsFormComplete(form) && AddCompletes(oracle.fault, old(db.Read(uid))) ==>
      resp == Redirect(FundingPath, 302) &&
      db.users == old(db.users)[uid := AddProvider(old(db.Read(uid)), LnbitsRecord(form, oracle))]
    ensures LnbitsFormComplete(form) && (oracle.fault.ReadFails? || oracle.fault == WriteFails(1)) ==>
      resp == Text(500, AddLnbitsFailed) && db.users == old(db.users)
    ensures LnbitsFormComplete(form) && oracle.fault == WriteFails(2) && old(db.Read(uid)).fundingProviders == [] ==>
      resp == Text(500, AddLnbitsFailed) &&
      db.users == old(db.users)[uid := old(db.Read(uid)).(fundingProviders := [LnbitsRecord(form, oracle)])]
  {
    if !LnbitsFormComplete(form) {
      return Text(400, FieldsRequired);
    }
    resp := AppendProvider(db, uid, LnbitsRecord(form, oracle), oracle.fault, AddLnbitsFailed);
  }

  /** `POST /add-funding/opennode`. */
  method AddOpenNode(db: UserStore, uid: string, form: Form, oracle: Oracles) returns (resp: Response)
    modifies db
    ensures !OpenNodeFormComplete(form) ==>
      resp == Text(400, FieldsRequired) && db.users == old(db.users)
    ensures OpenNodeFormComplete(form) && AddCompletes(oracle.fault, old(db.Read(uid))) ==>
      resp == Redirect(FundingPath, 302) &&
      db.users == old(db.users)[uid := AddProvider(old(db.Read(uid)), OpenNodeRecord(form, oracle))]
    ensures OpenNodeFormComplete(form) && (oracle.fault.ReadFails? || oracle.fault == WriteFails(1)) ==>
      resp == Text(500, AddOpenNodeFailed) && db.users == old(db.users)
    ensures OpenNodeFormComplete(form) && oracle.fault == WriteFails(2) && old(db.Read(uid)).fundingProviders == [] ==>
      resp == Text(500, AddOpenNodeFailed) &&
      db.users == old(db.users)[uid := old(db.Read(uid)).(fundingProviders := [OpenNodeRecord(form, oracle)])]
  {
    if !OpenNodeFormComplete(form) {
      return Text(400, FieldsRequired);
    }
    resp := AppendProvider(db, uid, OpenNodeRecord(form, oracle), oracle.fault, AddOpenNodeFailed);
  }

  /** `POST /set-default-provider`. */
  method PostSetDefault(db: UserStore, uid: string, index: IndexValue, fault: StoreFault)
    returns (resp: Response)
    modifies db
    ensures index.NaN? ==> resp == Text(400, "Invalid provider index") && db.users == old(db.users)
    ensures index.Number? && fault.ReadFails? ==>
      resp == Text(500, SetDefaultFailed) && db.users == old(db.users)
    ensures index.Number? && !fault.ReadFails? && !InRange(old(db.Read(uid)), index.value) ==>
      resp == Text(400, "Provider index out of range") && db.users == old(db.users)
    ensures index.Number? && fault == WriteFails(1) && InRange(old(db.Read(uid)), index.value) ==>
      resp == Text(500, SetDefaultFailed) && db.users == old(db.users)
    ensures index.Number? && !fault.ReadFails? && fault != WriteFails(1) &&
            InRange(old(db.Read(uid)), index.value) ==>
      resp == Redirect(FundingPath, 302) &&
      db.users == old(db.users)[uid := SetDefault(old(db.Read(uid)), index.value)]
  {
    if index.NaN? {
      return Text(400, "Invalid provider index");
    }
    if fault.ReadFails? {
      return Text(500, SetDefaultFailed);
    }
    var doc := db.Get(uid);
    var i := index.value;
    if i < 0 || i >= |doc.fundingProviders| {
      return Text(400, "Provider index out of range");
    }
    var selected := doc.fundingProviders[i].Tag();
    if fault == WriteFails(1) {
      return Text(500, SetDefaultFailed);
    }
    db.SetDefaultProvider(uid, selected);
    resp := Redirect(FundingPath, 302);
  }

  /** `GET /funding`: the list and the default, read with their defaults. */
  method ShowFunding(db: UserStore, uid: string, fault: StoreFault) returns (resp: Response)
    ensures fault.ReadFails? ==> resp == Text(500, "Internal Server Error")
    ensures !fault.ReadFails? && uid !in db.users ==> resp == FundingView([], "")
    ensures !fault.ReadFails? && uid in db.users ==>
      resp == FundingView(db.users[uid].fundingProviders, db.users[uid].defaultProvider)
  {
    if fault.ReadFails? {
      return Text(500, "Internal Server Error");
    }
    var doc := db.Get(uid);
    resp := FundingView(doc.fundingProviders, doc.defaultProvider);
  }

  /** The whole handler: the gate, then the first route that matches. */
  method Handle(db: UserStore, req: Request, oracle: Oracles) returns (resp: Response)
    modifies db
    ensures Authenticate(req.path, req.token, oracle.verifiedUid) == ToLogin ==>
      resp == Redirect(LoginPath, 302) && db.users == old(db.users)
    ensures !Writes(RouteOf(req.verb, req.path)) ==> db.users == old(db.users)
    ensures Authenticate(req.path, req.token, oracle.verifiedUid).Proceed? ==>
      match RouteOf(req.verb, req.path)
      case Unmatched => resp == Text(404, "Not Found")
      case PostAddFunding => resp == SelectSetup(Field(req.form, "provider"))
      case PostInstall => resp == InstallRequest(req.form)
      case GetSignup => resp == Page("signup.ejs")
      case GetLogin => resp == Page("login.ejs")
      case GetAddFunding => resp == Page("add_funding.ejs")
      case GetAddLnbits => resp == Page("add_lnbits.ejs")
      case GetAddOpenNode => resp == Page("add_opennode.ejs")
      case GetHome => resp == Delegated(GetHome)
      case PostSignup => resp == Delegated(PostSignup)
      case PostLogin => resp == Delegated(PostLogin)
      case GetLogout => resp == Delegated(GetLogout)
      case GetFunding =>
        var doc := Lookup(db.users, oracle.verifiedUid.value);
        resp == if oracle.fault.ReadFails? then Text(500, "Internal Server Error")
                else FundingView(doc.fundingProviders, doc.defaultProvider)
      case PostAddLnbits =>
        var doc := Lookup(old(db.users), oracle.verifiedUid.value);
        LnbitsFormComplete(req.form) && AddCompletes(oracle.fault, doc) ==>
          resp == Redirect(FundingPath, 302) &&
          db.users == old(db.users)[oracle.verifiedUid.value := AddProvider(doc, LnbitsRecord(req.form, oracle))]
      case PostAddOpenNode =>
        var doc := Lookup(old(db.users), oracle.verifiedUid.value);
        OpenNodeFormComplete(req.form) && AddCompletes(oracle.fault, doc) ==>
          resp == Redirect(FundingPath, 302) &&
          db.users == old(db.users)[oracle.verifiedUid.value := AddProvider(doc, OpenNodeRecord(req.form, oracle))]
      case PostSetDefaultProvider =>
        var doc := Lookup(old(db.users), oracle.verifiedUid.value);
        req.providerIndex.Number? && oracle.fault.NoFault? ==>
          if InRange(doc, req.providerIndex.value) then
            resp == Redirect(FundingPath, 302) &&
            db.users == old(db.users)[oracle.verifiedUid.value := SetDefault(doc, req.providerIndex.value)]
          else
            resp == Text(400, "Provider index out of range") && db.users == old(db.users)
    ensures oracle.fault.NoFault? && AllConsistent(old(db.users)) ==> AllConsistent(db.users)
  {
    var gate := Authenticate(req.path, req.token, oracle.verifiedUid);
    if gate == ToLogin {
      return Redirect(LoginPath, 302);
    }
    var uid := gate.uid;
    var route := RouteOf(req.verb, req.path);
    match route {
      case GetHome => resp := Delegated(GetHome);
      case PostInstall => resp := InstallRequest(req.form);
      case GetSignup => resp := Page("signup.ejs");
      case PostSignup => resp := Delegated(PostSignup);
      case GetLogin => resp := Page("login.ejs");
      case PostLogin => resp := Delegated(PostLogin);
      case GetLogout => resp := Delegated(GetLogout);
      case GetFunding => resp := ShowFunding(db, uid, oracle.fault);
      case GetAddFunding => resp := Page("add_funding.ejs");
      case PostAddFunding => resp := SelectSetup(Field(req.form, "provider"));
      case GetAddLnbits => resp := Page("add_lnbits.ejs");
      case PostAddLnbits =>
        ghost var doc := db.Read(uid);
        resp := AddLnbits(db, uid, req.form, oracle);
        if oracle.fault.NoFault? && AllConsistent(old(db.users)) && LnbitsFormComplete(req.form) {
          AddProviderConsistent(doc, LnbitsRecord(req.form, oracle));
          UpdateConsistent(old(db.users), uid, AddProvider(doc, LnbitsRecord(req.form, oracle)));
        }
      case GetAddOpenNode => resp := Page("add_opennode.ejs");
      case PostAddOpenNode =>
        ghost var doc := db.Read(uid);
        resp := AddOpenNode(db, uid, req.form, oracle);
        if oracle.fault.NoFault? && AllConsistent(old(db.users)) && OpenNodeFormComplete(req.form) {
          AddProviderConsistent(doc, OpenNodeRecord(req.form, oracle));
          UpdateConsistent(old(db.users), uid, AddProvider(doc, OpenNodeRecord(req.form, oracle)));
        }
      case PostSetDefaultProvider =>
        ghost var doc := db.Read(uid);
        resp := PostSetDefault(db, uid, req.providerIndex, oracle.fault);
        if oracle.fault.NoFault? && AllConsistent(old(db.users)) &&
           req.providerIndex.Number? && InRange(doc, req.providerIndex.value) {
          SetDefaultConsistent(doc, req.providerIndex.value);
          UpdateConsistent(old(db.users), uid, SetDefault(doc, req.providerIndex.value));
        }
      case Unmatched => resp := Text(404, "Not Found");
    }
  }
}
