/** The profile-update endpoint: a POST whose body carries the new username,
    badges, social links and profile fields. It runs a fixed sequence of
    checks, each of which can end the request, then stores the profile and
    answers with a freshly signed token. */
module AddProfile {
  import opened Wrappers
  import opened Text

  /** A value `JSON.parse` can produce. */
  datatype Json =
    | JNull
    | JBool(b: bool)
    | JNum(n: int)
    | JStr(s: string)
    | JArray(items: seq<Json>)
    | JObject(fields: map<string, Json>)

  /** JavaScript truthiness of a parsed value. */
  predicate Truthy(v: Json) {
    match v
    case JNull => false
    case JBool(b) => b
    case JNum(n) => n != 0
    case JStr(s) => s != ""
    case JArray(_) => true
    case JObject(_) => true
  }

  /** `o.key` of a parsed value: only objects have properties here. */
  function Field(v: Json, key: string): Option<Json> {
    if v.JObject? && key in v.fields then Some(v.fields[key]) else None
  }

  /** JavaScript truthiness of a property that may be absent. */
  predicate FieldTruthy(v: Json, key: string) {
    var f := Field(v, key);
    f.Some? && Truthy(f.value)
  }

  /** A social link as stored: `{ link, type }`. */
  datatype SocialLink = SocialLink(link: Json, linkType: Json)

  /** The request body. `badges` and `socialLinks` hold what `JSON.parse`
      makes of the submitted text, `None` when it throws; the other fields are
      `None` when absent. */
  datatype ProfileBody = ProfileBody(
    badges: Option<Json>,
    bio: Option<string>,
    image: Option<string>,
    title: Option<string>,
    socialLinks: Option<Json>,
    username: Option<string>,
    customUsername: Option<bool>,
    email: Option<string>)

  /** The request: its method, body, the token the request carries (`None`
      when there is none) and its `x-network` header. */
  datatype ProfileRequest = ProfileRequest(httpMethod: string, body: ProfileBody, token: Option<string>, network: string)

  /** The user the token belongs to, with the email claim its record carries
      (`None` when it has none). */
  datatype User = User(id: int, username: string, email: Option<string>)

  /** The database, the auth service and the two helpers the endpoint relies
      on, as answers the model does not fix. */
  datatype Services = Services(
    /** `nameBlacklist` */
    blacklist: seq<string>,
    isValidEmail: string -> bool,
    userForToken: string -> Option<User>,
    /** a user document with this (lower-cased) username exists */
    usernameExists: string -> bool,
    /** a user document with this (lower-cased) email exists */
    emailExists: string -> bool,
    /** the user document accepts the update */
    updateSucceeds: bool)

  /** The messages the endpoint answers with. */
  datatype Message =
    | InvalidMethod        // 'Invalid request method, POST required.'
    | MissingParameters    // 'Missing parameters in request body'
    | UsernameBanned
    | BadgesNotArray       // 'Badges must be an array'
    | SocialLinksNotArray  // 'Social links must be an array'
    | MissingToken         // 'Missing user token'
    | UserNotFound
    | UsernameTaken
    | EmailTaken
    | InvalidEmail
    | UpdateFailed         // 'Error updating profile'

  /** The stored profile. */
  datatype Profile = Profile(
    badges: Json, bio: string, email: string, image: string, socialLinks: seq<SocialLink>, title: string)

  /** What is written to the user document. */
  datatype UserUpdate = UserUpdate(customUsername: bool, profile: Profile, username: string)

  /** The signed token's payload: the user's own claims overridden by these;
      `email` is `None` when the user's own email claim is kept. */
  datatype Claims = Claims(user: User, customUsername: bool, email: Option<string>, profile: Profile, username: string)
  {
    /** The email claim the token ends up with: the override when there is
        one, otherwise the one spread in from the user. */
    function EmailClaim(): Option<string> {
      if email.Some? then email else user.email
    }
  }

  /** `SendVerifyEmail(token, email, network)`. */
  datatype VerificationMail = VerificationMail(token: string, email: string, network: string)

  /** A reply with a status and message, a token (status 200), or an error
      the handler throws without a status (a parse failure, a missing email). */
  datatype Response = Reply(status: int, message: Message) | Issued(claims: Claims) | Fault

  /** The response and the two side effects: the verification mail sent and
      the document update attempted. */
  datatype Outcome = Outcome(response: Response, verificationMail: Option<VerificationMail>, update: Option<UserUpdate>)

  function Rejected(status: int, m: Message): Outcome {
    Outcome(Reply(status, m), None, None)
  }

  /** Some blacklist entry occurs in the lower-cased username. */
  predicate Banned(lower: string, blacklist: seq<string>) {
    exists j :: 0 <= j < |blacklist| && Contains(lower, blacklist[j])
  }

  /** `JSON.parse(text) || []`. */
  function OrEmpty(v: Json): Json {
    if Truthy(v) then v else JArray([])
  }

  /** The reducer's step: an entry with a truthy `link` and `type` becomes `{ link, type }`. */
  predicate IsLink(v: Json) {
    Truthy(v) && FieldTruthy(v, "link") && FieldTruthy(v, "type")
  }

  function ToLink(v: Json): SocialLink
    requires IsLink(v)
  {
    SocialLink(Field(v, "link").value, Field(v, "type").value)
  }

  function Step(v: Json): seq<SocialLink> {
    if IsLink(v) then [ToLink(v)] else []
  }

  /** `links.reduce((prev, curr) => …, prev)`: a left fold. */
  function ReduceLinks(prev: seq<SocialLink>, links: seq<Json>): seq<SocialLink>
    decreases |links|
  {
    if links == [] then prev else ReduceLinks(prev + Step(links[0]), links[1..])
  }

  /** The same normalisation stated from the front: keep and reshape each link. */
  function KeepLinks(links: seq<Json>): seq<SocialLink> {
    if links == [] then [] else Step(links[0]) + KeepLinks(links[1..])
  }

  lemma {:induction false} ReduceIsKeep(prev: seq<SocialLink>, links: seq<Json>)
    ensures ReduceLinks(prev, links) == prev + KeepLinks(links)
    decreases |links|
  {
    if links != [] {
      ReduceIsKeep(prev + Step(links[0]), links[1..]);
      assert prev + Step(links[0]) + KeepLinks(links[1..]) == prev + (Step(links[0]) + KeepLinks(links[1..]));
    }
  }

  /** Normalisation goes entry by entry, in order. */
  lemma {:induction false} KeepAppend(a: seq<Json>, b: seq<Json>)
    ensures KeepLinks(a + b) == KeepLinks(a) + KeepLinks(b)
  {
    if a != [] {
      assert (a + b)[1..] == a[1..] + b;
      KeepAppend(a[1..], b);
      assert Step(a[0]) + (KeepLinks(a[1..]) + KeepLinks(b)) == Step(a[0]) + KeepLinks(a[1..]) + KeepLinks(b);
    } else {
      assert a + b == b;
    }
  }

  /** A single entry is kept, reduced to `{ link, type }`, exactly when its
      `link` and `type` are truthy. */
  lemma KeepSingle(v: Json)
    ensures IsLink(v) ==> KeepLinks([v]) == [SocialLink(Field(v, "link").value, Field(v, "type").value)]
    ensures !IsLink(v) ==> KeepLinks([v]) == []
  {
    assert [v][1..] == [];
  }

  /** Every stored link comes from an entry of the input. */
  lemma {:induction false} KeptFromInput(links: seq<Json>)
    ensures forall l :: l in KeepLinks(links) ==> exists v :: v in links && IsLink(v) && l == ToLink(v)
  {
    if links != [] {
      KeptFromInput(links[1..]);
      forall l | l in KeepLinks(links)
        ensures exists v :: v in links && IsLink(v) && l == ToLink(v)
      {
        if l in Step(links[0]) {
          assert links[0] in links;
        } else {
          assert l in KeepLinks(links[1..]);
          var v :| v in links[1..] && IsLink(v) && l == ToLink(v);
          assert v in links;
        }
      }
    }
  }

  /** The normalised social links of a parsed array. */
  function NormalisedLinks(links: Json): seq<SocialLink>
    requires links.JArray?
  {
    ReduceLinks([], links.items)
  }

  /** The profile written for a request whose checks all passed. */
  function ProfileOf(badges: Json, links: seq<SocialLink>, body: ProfileBody, email: string): Profile {
    Profile(badges, body.bio.GetOr(""), email, body.image.GetOr(""), links, body.title.GetOr(""))
  }

  /** The whole handler: the checks in the handler's order, the first failing
      one deciding the answer. */
  function Handle(req: ProfileRequest, svc: Services): Outcome {
    var body := req.body;
    if req.httpMethod != "POST" then Rejected(405, InvalidMethod)
    else if !Present(body.username) then Rejected(400, MissingParameters)
    else
      var username := body.username.value;
      if Banned(ToLower(username), svc.blacklist) then Rejected(400, UsernameBanned)
      else if body.badges.None? || body.socialLinks.None? then Outcome(Fault, None, None)
      else
        var badges := OrEmpty(body.badges.value);
        var links := OrEmpty(body.socialLinks.value);
        if !badges.JArray? then Rejected(400, BadgesNotArray)
        else if !links.JArray? then Rejected(400, SocialLinksNotArray)
        else if !Present(req.token) then Rejected(400, MissingToken)
        else
          var user := svc.userForToken(req.token.value);
          if user.None? then Rejected(400, UserNotFound)
          else if svc.usernameExists(ToLower(username)) && user.value.username != username then
            Rejected(400, UsernameTaken)
          else if body.email.None? then Outcome(Fault, None, None)
          else
            var email := body.email.value;
            if email != "" && svc.emailExists(ToLower(email)) then Rejected(400, EmailTaken)
            else if email != "" && !svc.isValidEmail(email) then Rejected(400, InvalidEmail)
            else
              var sent := if email != "" then Some(VerificationMail(req.token.value, email, req.network)) else None;
              var profile := ProfileOf(badges, NormalisedLinks(links), body, email);
              var custom := body.customUsername.GetOr(false);
              var claims := Claims(user.value, custom, if email != "" then Some(email) else None, profile, username);
              var update := UserUpdate(custom, profile, username);
              Outcome(if svc.updateSucceeds then Issued(claims) else Reply(500, UpdateFailed), sent, Some(update))
  }

  /** The handler as it runs: early returns and a loop over the blacklist. */
  method Handler(req: ProfileRequest, svc: Services) returns (o: Outcome)
    ensures o == Handle(req, svc)
  {
    var body := req.body;
    if req.httpMethod != "POST" {
      return Rejected(405, InvalidMethod);
    }
    if !Present(body.username) {
      return Rejected(400, MissingParameters);
    }
    var username := body.username.value;
    var lower := ToLower(username);
    for i := 0 to |svc.blacklist|
      invariant forall j :: 0 <= j < i ==> !Contains(lower, svc.blacklist[j])
    {
      if Contains(lower, svc.blacklist[i]) {
        return Rejected(400, UsernameBanned);
      }
    }
    if body.badges.None? || body.socialLinks.None? {
      return Outcome(Fault, None, None);
    }
    var badges := OrEmpty(body.badges.value);
    var links := OrEmpty(body.socialLinks.value);
    if !badges.JArray? {
      return Rejected(400, BadgesNotArray);
    }
    if !links.JArray? {
      return Rejected(400, SocialLinksNotArray);
    }
    var newLinks := ReduceLinks([], links.items);
    if !Present(req.token) {
      return Rejected(400, MissingToken);
    }
    var user := svc.userForToken(req.token.value);
    if user.None? {
      return Rejected(400, UserNotFound);
    }
    if svc.usernameExists(lower) && user.value.username != username {
      return Rejected(400, UsernameTaken);
    }
    if body.email.None? {
      return Outcome(Fault, None, None);
    }
    var email := body.email.value;
    var sent := None;
    if |email| > 0 {
      if svc.emailExists(ToLower(email)) {
        return Rejected(400, EmailTaken);
      }
      if !svc.isValidEmail(email) {
        return Rejected(400, InvalidEmail);
      }
      sent := Some(VerificationMail(req.token.value, email, req.network));
    }
    var profile := ProfileOf(badges, newLinks, body, email);
    var custom := body.customUsername.GetOr(false);
    var claims := if |email| > 0 then Claims(user.value, custom, Some(email), profile, username)
                  else Claims(user.value, custom, None, profile, username);
    var update := UserUpdate(custom, profile, username);
    var response := Reply(500, UpdateFailed);
    if svc.updateSucceeds {
      response := Issued(claims);
    }
    o := Outcome(response, sent, Some(update));
  }

  /** A request that is not a POST is refused before anything else is looked at. */
  lemma MethodCheckedFirst(req: ProfileRequest, svc: Services)
    requires req.httpMethod != "POST"
    ensures Handle(req, svc) == Outcome(Reply(405, InvalidMethod), None, None)
  {
  }

  /** A POST without a username is a bad request. */
  lemma UsernameRequired(req: ProfileRequest, svc: Services)
    requires req.httpMethod == "POST" && (req.body.username == None || req.body.username == Some(""))
    ensures Handle(req, svc) == Outcome(Reply(400, MissingParameters), None, None)
  {
  }

  /** A username whose lower-cased form contains a blacklist entry is refused,
      whatever else the request holds. */
  lemma BlacklistedUsername(req: ProfileRequest, svc: Services, j: int)
    requires req.httpMethod == "POST" && Present(req.body.username)
    requires 0 <= j < |svc.blacklist| && Contains(ToLower(req.body.username.value), svc.blacklist[j])
    ensures Handle(req, svc) == Outcome(Reply(400, UsernameBanned), None, None)
  {
  }

  /** Badges or social links that parse to a truthy non-array are a bad
      request; falsy ones count as empty arrays. */
  lemma ArraysRequired(req: ProfileRequest, svc: Services)
    requires req.httpMethod == "POST" && Present(req.body.username)
    requires !Banned(ToLower(req.body.username.value), svc.blacklist)
    requires req.body.badges.Some? && req.body.socialLinks.Some?
    ensures Truthy(req.body.badges.value) && !req.body.badges.value.JArray? ==>
              Handle(req, svc).response == Reply(400, BadgesNotArray)
    ensures (!Truthy(req.body.badges.value) || req.body.badges.value.JArray?)
            && Truthy(req.body.socialLinks.value) && !req.body.socialLinks.value.JArray? ==>
              Handle(req, svc).response == Reply(400, SocialLinksNotArray)
  {
  }

  /** Everything a written profile implies about its request: every check passed. */
  lemma WriteMeansChecksPassed(req: ProfileRequest, svc: Services)
    requires Handle(req, svc).update.Some?
    ensures req.httpMethod == "POST" && Present(req.body.username)
    ensures !Banned(ToLower(req.body.username.value), svc.blacklist)
    ensures req.body.badges.Some? && OrEmpty(req.body.badges.value).JArray?
    ensures req.body.socialLinks.Some? && OrEmpty(req.body.socialLinks.value).JArray?
    ensures Present(req.token) && svc.userForToken(req.token.value).Some?
    ensures svc.usernameExists(ToLower(req.body.username.value)) ==>
              svc.userForToken(req.token.value).value.username == req.body.username.value
    ensures req.body.email.Some?
    ensures req.body.email.value != "" ==>
              !svc.emailExists(ToLower(req.body.email.value)) && svc.isValidEmail(req.body.email.value)
  {
  }

  /** A username already taken by another user is refused. */
  lemma TakenUsername(req: ProfileRequest, svc: Services)
    requires req.httpMethod == "POST" && Present(req.body.username)
    requires !Banned(ToLower(req.body.username.value), svc.blacklist)
    requires req.body.badges.Some? && OrEmpty(req.body.badges.value).JArray?
    requires req.body.socialLinks.Some? && OrEmpty(req.body.socialLinks.value).JArray?
    requires Present(req.token) && svc.userForToken(req.token.value).Some?
    requires svc.usernameExists(ToLower(req.body.username.value))
    requires svc.userForToken(req.token.value).value.username != req.body.username.value
    ensures Handle(req, svc) == Outcome(Reply(400, UsernameTaken), None, None)
  {
  }

  /** Past the username checks, a non-empty email already in use is refused
      even when it is also invalid; an unused one is then checked for validity. */
  lemma EmailExistenceBeforeValidity(req: ProfileRequest, svc: Services)
    requires req.httpMethod == "POST" && Present(req.body.username)
    requires !Banned(ToLower(req.body.username.value), svc.blacklist)
    requires req.body.badges.Some? && OrEmpty(req.body.badges.value).JArray?
    requires req.body.socialLinks.Some? && OrEmpty(req.body.socialLinks.value).JArray?
    requires Present(req.token) && svc.userForToken(req.token.value).Some?
    requires !svc.usernameExists(ToLower(req.body.username.value))
             || svc.userForToken(req.token.value).value.username == req.body.username.value
    requires Present(req.body.email)
    ensures svc.emailExists(ToLower(req.body.email.value)) ==>
              Handle(req, svc) == Outcome(Reply(400, EmailTaken), None, None)
    ensures !svc.emailExists(ToLower(req.body.email.value)) && !svc.isValidEmail(req.body.email.value) ==>
              Handle(req, svc) == Outcome(Reply(400, InvalidEmail), None, None)
  {
  }

  /** What is written: the missing text fields become '', falsy badges
      become `[]`, the links are normalised, and the verification mail goes, with the request's token
      and network, to a non-empty email only. The new email replaces the
      token's email claim exactly when it is non-empty; otherwise the user's
      own claim is kept. The token also carries the new profile, username and
      `custom_username`. */
  lemma WrittenProfile(req: ProfileRequest, svc: Services)
    requires Handle(req, svc).update.Some?
    ensures var o := Handle(req, svc);
            var u := o.update.value;
            var body := req.body;
            && u.username == body.username.value
            && u.customUsername == body.customUsername.GetOr(false)
            && u.profile.bio == (if body.bio.Some? then body.bio.value else "")
            && u.profile.image == (if body.image.Some? then body.image.value else "")
            && u.profile.title == (if body.title.Some? then body.title.value else "")
            && u.profile.email == body.email.value
            && u.profile.badges == OrEmpty(body.badges.value)
            && u.profile.socialLinks == KeepLinks(OrEmpty(body.socialLinks.value).items)
            && (o.verificationMail.Some? <==> body.email.value != "")
            && (o.verificationMail.Some? ==>
                  o.verificationMail.value == VerificationMail(req.token.value, body.email.value, req.network))
            && (svc.updateSucceeds ==>
                  && o.response.Issued? && o.response.claims.profile == u.profile
                  && o.response.claims.username == u.username
                  && o.response.claims.customUsername == u.customUsername
                  && o.response.claims.EmailClaim()
                     == if body.email.value != "" then Some(body.email.value)
                        else svc.userForToken(req.token.value).value.email)
            && (!svc.updateSucceeds ==> o.response == Reply(500, UpdateFailed))
  {
    var links := OrEmpty(req.body.socialLinks.value);
    ReduceIsKeep([], links.items);
  }
}
