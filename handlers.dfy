/** The two update routes of the Rust service: `og_update_user` and `update_user`. Each
    takes a client from the pool, derives the player's token as the lowercase hex of an
    HMAC, reads and then rewrites the player's row, reconciles the player's Discord roles
    and answers with a message naming the roles gained. Every failing step is turned into a
    fixed internal error, logged to the webhook, and ends the request. */
module Handlers {
  import opened Wrappers
  import opened Errors
  import opened Models
  import opened Text
  import Utf8
  import Db
  import Discord
  import WebhookLogging
  import RoleHandling

  type Byte = Utf8.Byte

  /** `ErrorLogType` (its declaration is not part of this model): whose request failed. */
  datatype ErrorLogType = User(token: string) | Internal

  // ---------------------------------------------------------------------------------------
  // Result helpers

  /** `make_response(error_enum)`: a success passes through unchanged, and every failure,
      whatever it was, becomes exactly `e`. */
  function MakeResponse<T, E>(res: Result<T, E>, e: MyError): (r: Result<T, MyError>)
    ensures res.Ok? ==> r == Ok(res.value)
    ensures res.Err? ==> r == Err(e)
  {
    match res
    case Ok(v) => Ok(v)
    case Err(_) => Err(e)
  }

  /** The text `make_log` posts for a failure: the error's Display text, after the token for
      a user's request. */
  function ErrorContent(error: MyError, t: ErrorLogType): (r: string)
    ensures |r| >= |Display(error)| && r[|r| - |Display(error)|..] == Display(error)
    ensures t.Internal? ==> r == Display(error)
    ensures t.User? ==> |r| >= |UserHeading| + |t.token| && r[..|UserHeading| + |t.token|] == UserHeading + t.token
  {
    match t
    case User(token) => UserHeading + token + "\n\n" + Display(error)
    case Internal => Display(error)
  }

  const UserHeading: string := "Error with a user\n\ntoken: "

  /** `make_log(error_type)`: returns its input unchanged; a failure is also posted to the
      webhook as a failure log, and a success posts nothing. */
  method MakeLog<T>(res: Result<T, MyError>, t: ErrorLogType, hook: WebhookLogging.Webhook) returns (r: Result<T, MyError>)
    modifies hook
    ensures r == res
    ensures res.Ok? ==> hook.sent == old(hook.sent)
    ensures res.Err? ==>
      hook.sent == old(hook.sent) + [WebhookLogging.Content(hook.palette, WebhookLogging.Failure, ErrorContent(res.error, t))]
  {
    r := res;
    if res.Err? {
      hook.WebhookLog(ErrorContent(res.error, t), WebhookLogging.Failure);
    }
  }

  // ---------------------------------------------------------------------------------------
  // The token: lowercase hex of the MAC

  predicate IsLowerHex(c: char)
  {
    '0' <= c <= '9' || 'a' <= c <= 'f'
  }

  predicate AllLowerHex(s: string)
  {
    forall i :: 0 <= i < |s| ==> IsLowerHex(s[i])
  }

  function HexDigit(n: int): (c: char)
    requires 0 <= n < 16
    ensures IsLowerHex(c)
  {
    if n < 10 then ('0' as int + n) as char else ('a' as int + n - 10) as char
  }

  function HexValue(c: char): (n: int)
    requires IsLowerHex(c)
    ensures 0 <= n < 16
  {
    if c <= '9' then c as int - '0' as int else c as int - 'a' as int + 10
  }

  /** `format!("{:02x?}", byte)`: two lowercase hex digits, zero-padded. */
  function HexByte(b: Byte): (r: string)
    ensures |r| == 2 && AllLowerHex(r)
  {
    [HexDigit(b / 16), HexDigit(b % 16)]
  }

  /** The rendered code: every byte as two digits, joined with nothing between. */
  function Hex(code: seq<Byte>): (r: string)
    ensures |r| == 2 * |code| && AllLowerHex(r)
  {
    if |code| == 0 then "" else HexByte(code[0]) + Hex(code[1..])
  }

  /** Reading a lowercase hex text of even length back into bytes. */
  function Unhex(s: string): (r: seq<Byte>)
    requires |s| % 2 == 0 && AllLowerHex(s)
    ensures |r| == |s| / 2
  {
    if |s| == 0 then [] else [HexValue(s[0]) * 16 + HexValue(s[1])] + Unhex(s[2..])
  }

  /** The rendering loses nothing: the bytes can be read back from the text. */
  lemma {:induction false} UnhexHex(code: seq<Byte>)
    ensures Unhex(Hex(code)) == code
    decreases |code|
  {
    if |code| > 0 {
      var b := code[0];
      var s := Hex(code);
      assert s[0] == HexDigit(b / 16) && s[1] == HexDigit(b % 16) && s[2..] == Hex(code[1..]);
      UnhexHex(code[1..]);
      assert code == [b] + code[1..];
    }
  }

  /** Every lowercase hex text of even length is the rendering of some code: with
      `UnhexHex`, `Hex` is a one-to-one map onto those texts. */
  lemma {:induction false} HexUnhex(s: string)
    requires |s| % 2 == 0 && AllLowerHex(s)
    ensures Hex(Unhex(s)) == s
    decreases |s|
  {
    if |s| > 0 {
      var b: Byte := HexValue(s[0]) * 16 + HexValue(s[1]);
      assert b / 16 == HexValue(s[0]) && b % 16 == HexValue(s[1]);
      assert HexDigit(HexValue(s[0])) == s[0] && HexDigit(HexValue(s[1])) == s[1];
      HexUnhex(s[2..]);
      var u := Unhex(s);
      assert u[0] == b && u[1..] == Unhex(s[2..]);
      assert s == [s[0], s[1]] + s[2..];
    }
  }

  /** HMAC-SHA1 of a message under a key: a function the model does not look inside. */
  type Mac = (seq<Byte>, seq<Byte>) -> seq<Byte>

  /** `Hmac::new(Sha1::new(), key)`: a MAC under construction, fed its message piece by
      piece with `input`. */
  class Hmac {
    const key: seq<Byte>
    var message: seq<Byte>

    constructor(key: seq<Byte>)
      ensures this.key == key && message == []
    {
      this.key := key;
      message := [];
    }

    /** `input(bytes)`: the bytes are appended to the message. */
    method Input(bytes: seq<Byte>)
      modifies this
      ensures message == old(message) + bytes
    {
      message := message + bytes;
    }

    /** `result().code()`. */
    method Code(mac: Mac) returns (r: seq<Byte>)
      ensures r == mac(key, message)
    {
      r := mac(key, message);
    }
  }

  /** The token of `og_update_user`: the MAC, under the `USERDATA_AUTH` secret, of the
      player id and then the player token. */
  function OgToken(mac: Mac, secret: string, playerId: string, playerToken: string): string
  {
    Hex(mac(Utf8.Encode(secret), Utf8.Encode(playerId) + Utf8.Encode(playerToken)))
  }

  /** The token of `update_user`: the MAC of the empty message, the same for every request. */
  function UpdateToken(mac: Mac, secret: string): string
  {
    Hex(mac(Utf8.Encode(secret), []))
  }

  /** The two pieces are fed without a separator, so the token is the MAC of their
      concatenation, and any two requests whose id and token concatenate to the same text
      get the same token. */
  lemma OgTokenJoined(mac: Mac, secret: string, playerId: string, playerToken: string, otherId: string, otherToken: string)
    requires playerId + playerToken == otherId + otherToken
    ensures OgToken(mac, secret, playerId, playerToken) == Hex(mac(Utf8.Encode(secret), Utf8.Encode(playerId + playerToken)))
    ensures OgToken(mac, secret, playerId, playerToken) == OgToken(mac, secret, otherId, otherToken)
  {
    Utf8.EncodeAppend(playerId, playerToken);
    Utf8.EncodeAppend(otherId, otherToken);
  }

  /** A token tells the MAC code it came from. */
  lemma TokenCode(mac: Mac, secret: string, playerId: string, playerToken: string)
    ensures var code := mac(Utf8.Encode(secret), Utf8.Encode(playerId) + Utf8.Encode(playerToken));
      var t := OgToken(mac, secret, playerId, playerToken);
      |t| == 2 * |code| && AllLowerHex(t) && Unhex(t) == code
  {
    UnhexHex(mac(Utf8.Encode(secret), Utf8.Encode(playerId) + Utf8.Encode(playerToken)));
  }

  // ---------------------------------------------------------------------------------------
  // Messages

  const PoolFailed: string := "request failed at creating database client, please try again"
  const FetchFailed: string := "Failed at retrieving existing data, you may not have your account linked yet"
  const UpdateFailed: string := "The request has unfortunately failed the update"
  const RolesFailed: string := "The role-handling process has failed"
  const Successful: string := "The request was successful, "
  const AlreadyGained: string :=
    Successful + "but you've already gained " + "all of the possible roles with your current progress"
  const GainedPrefix: string := Successful + "you've gained the following roles: "

  /** The reply: the fixed text when the gained names join to nothing, else the names
      joined with ", " after the prefix. */
  function ReplyMessage(gained: seq<string>): string
  {
    var joined := Join(gained, ", ");
    if |joined| == 0 then AlreadyGained else GainedPrefix + joined
  }

  /** The informational log line naming the Discord id. */
  function LogMessage(discordId: string, gained: seq<string>): string
  {
    var joined := Join(gained, ", ");
    if |joined| == 0 then "user with ID " + discordId + " had a successful request but gained no roles"
    else "user with ID " + discordId + " gained the following roles: " + joined
  }

  /** Joining with a non-empty separator gives nothing only for no names or one empty name. */
  lemma JoinEmpty(parts: seq<string>, sep: string)
    requires |sep| > 0
    ensures |Join(parts, sep)| == 0 <==> |parts| == 0 || (|parts| == 1 && |parts[0]| == 0)
  {
  }

  /** With non-empty role names, the fixed reply comes exactly when nothing was gained, and
      otherwise the reply is the prefix and the names in order. */
  lemma ReplyChoice(gained: seq<string>)
    requires forall i :: 0 <= i < |gained| ==> |gained[i]| > 0
    ensures ReplyMessage(gained) == AlreadyGained <==> gained == []
    ensures gained != [] ==> ReplyMessage(gained) == GainedPrefix + Join(gained, ", ")
  {
    JoinEmpty(gained, ", ");
    if gained != [] {
      var m := GainedPrefix + Join(gained, ", ");
      assert |Successful| == 28;
      assert m[28] == 'y' && AlreadyGained[28] == 'b';
    }
  }

  // ---------------------------------------------------------------------------------------
  // The route

  /** What a request leaves behind: the reply message or error, the rows, the members'
      roles, and the one log it posts. */
  datatype Outcome = Outcome(
    reply: Result<string, MyError>,
    rows: map<string, UserData>,
    members: map<(nat, nat), seq<Discord.RoleId>>,
    log: (WebhookLogging.Log, string))

  function Failed(e: MyError, t: ErrorLogType, rows: map<string, UserData>, members: map<(nat, nat), seq<Discord.RoleId>>): Outcome
  {
    Outcome(Err(e), rows, members, (WebhookLogging.Failure, ErrorContent(e, t)))
  }

  /** The steps both routes share once the token, the beta flag and the progress are known:
      a client from the pool, then the stored row. */
  function Pipeline(online: bool, writable: bool, rows: map<string, UserData>,
                    members: map<(nat, nat), seq<Discord.RoleId>>, behaviour: Discord.Behaviour,
                    k: RoleHandling.Constants, token: string, beta: bool, data: UpdateUserData, now: int): Outcome
    requires RoleHandling.ValidRoles(k.roles)
  {
    if !online then Failed(InternalError(PoolFailed), Internal, rows, members)
    else Stored(writable, rows, members, behaviour, k, token, beta, data, now)
  }

  /** Fetching the row, then rewriting it, then the roles. */
  function Stored(writable: bool, rows: map<string, UserData>,
                  members: map<(nat, nat), seq<Discord.RoleId>>, behaviour: Discord.Behaviour,
                  k: RoleHandling.Constants, token: string, beta: bool, data: UpdateUserData, now: int): Outcome
    requires RoleHandling.ValidRoles(k.roles)
  {
    if token !in rows then Failed(InternalError(FetchFailed), User(token), rows, members)
    else if !writable then Failed(InternalError(UpdateFailed), User(token), rows, members)
    else
      var updated := Updated(rows[token], beta, data, now);
      Synced(rows[token := updated], members, behaviour, k, token, updated)
  }

  /** The role reconciliation of the updated row, and the reply. */
  function Synced(rows: map<string, UserData>, members: map<(nat, nat), seq<Discord.RoleId>>, behaviour: Discord.Behaviour,
                  k: RoleHandling.Constants, token: string, updated: UserData): Outcome
    requires RoleHandling.ValidRoles(k.roles)
  {
    var sync := RoleHandling.RoleSync(k, updated, members, behaviour);
    match sync.0
    case Err(_) => Failed(InternalError(RolesFailed), User(token), rows, sync.1)
    case Ok(gained) =>
      Outcome(Ok(ReplyMessage(gained)), rows, sync.1,
              (WebhookLogging.Informational, LogMessage(updated.discordId, gained)))
  }

  /** The order of the steps: the one log a request posts is a failure log exactly when
      it fails; a missing client, a missing row or a refused update ends it with its own error
      before any row or role changes; otherwise the row is rewritten, the roles are
      reconciled against exactly the rewritten row, and the reply names the roles gained. */
  lemma PipelineSteps(online: bool, writable: bool, rows: map<string, UserData>,
                      members: map<(nat, nat), seq<Discord.RoleId>>, behaviour: Discord.Behaviour,
                      k: RoleHandling.Constants, token: string, beta: bool, data: UpdateUserData, now: int)
    requires RoleHandling.ValidRoles(k.roles)
    ensures var o := Pipeline(online, writable, rows, members, behaviour, k, token, beta, data, now);
      && (o.reply.Err? <==> o.log.0 == WebhookLogging.Failure)
      && (!online ==> o == Failed(InternalError(PoolFailed), Internal, rows, members))
      && (online && token !in rows ==> o == Failed(InternalError(FetchFailed), User(token), rows, members))
      && (online && token in rows && !writable ==> o == Failed(InternalError(UpdateFailed), User(token), rows, members))
      && (o.rows != rows || o.members != members ==> online && token in rows && writable)
      && (online && token in rows && writable ==>
           var updated := Updated(rows[token], beta, data, now);
           var sync := RoleHandling.RoleSync(k, updated, members, behaviour);
           && o.rows == rows[token := updated]
           && o.members == sync.1
           && (o.reply.Ok? <==> sync.0.Ok?)
           && (o.reply.Ok? ==> o.reply.value == ReplyMessage(sync.0.value)
                               && o.log == (WebhookLogging.Informational, LogMessage(updated.discordId, sync.0.value)))
           && (o.reply.Err? ==> o.reply.error == InternalError(RolesFailed)))
  {
  }

  /** The HTTP side of a reply: 200 with a JSON `MessageResponse`, or the error. */
  function Respond(reply: Result<string, MyError>): (r: Result<HttpResponse, MyError>)
    ensures r.Ok? <==> reply.Ok?
    ensures r.Ok? ==> r.value.status == 200 && r.value.message == reply.value
  {
    match reply
    case Ok(m) => Ok(HttpResponse(200, "application/json", m))
    case Err(e) => Err(e)
  }

  /** The fetch and the update, as the routes run them once the token is known. */
  method Run(token: string, beta: bool, data: UpdateUserData, now: int, k: RoleHandling.Constants,
             store: Db.Store, api: Discord.DiscordApi, hook: WebhookLogging.Webhook)
    returns (r: Result<HttpResponse, MyError>)
    requires RoleHandling.ValidRoles(k.roles)
    modifies store, api, hook
    ensures var o := Stored(store.writable, old(store.rows), old(api.members), api.behaviour,
                            k, token, beta, data, now);
      && store.rows == o.rows && api.members == o.members
      && hook.sent == old(hook.sent) + [WebhookLogging.Content(hook.palette, o.log.0, o.log.1)]
      && r == Respond(o.reply)
  {
    var got := store.GetUserdata(token);
    var fetched := MakeResponse(got, InternalError(FetchFailed));
    fetched := MakeLog(fetched, User(token), hook);
    if fetched.Err? {
      return Err(fetched.error);
    }
    var upd := store.UpdateUserdata(token, beta, data, now);
    var updated := MakeResponse(upd, InternalError(UpdateFailed));
    updated := MakeLog(updated, User(token), hook);
    if updated.Err? {
      return Err(updated.error);
    }
    r := Reconcile(token, updated.value, k, store, api, hook);
  }

  /** `handle_roles` on the updated row, its error mapped and logged, then the reply and
      the informational log. */
  method Reconcile(token: string, updated: UserData, k: RoleHandling.Constants,
                   store: Db.Store, api: Discord.DiscordApi, hook: WebhookLogging.Webhook)
    returns (r: Result<HttpResponse, MyError>)
    requires RoleHandling.ValidRoles(k.roles)
    modifies api, hook
    ensures var o := Synced(store.rows, old(api.members), api.behaviour, k, token, updated);
      && api.members == o.members
      && hook.sent == old(hook.sent) + [WebhookLogging.Content(hook.palette, o.log.0, o.log.1)]
      && r == Respond(o.reply)
  {
    var roles := RoleHandling.HandleRoles(updated, k, api);
    var handled := MakeResponse(roles, InternalError(RolesFailed));
    handled := MakeLog(handled, User(token), hook);
    if handled.Err? {
      return Err(handled.error);
    }
    hook.WebhookLog(LogMessage(updated.discordId, handled.value), WebhookLogging.Informational);
    r := Ok(HttpResponse(200, "application/json", ReplyMessage(handled.value)));
  }

  /** `og_update_user(query.playerId, body)`. */
  method OgUpdateUser(playerId: string, body: OGUpdateUserData, secret: string, mac: Mac, now: int,
                      k: RoleHandling.Constants, store: Db.Store, api: Discord.DiscordApi, hook: WebhookLogging.Webhook)
    returns (r: Result<HttpResponse, MyError>)
    requires RoleHandling.ValidRoles(k.roles)
    modifies store, api, hook
    ensures var o := Pipeline(store.online, store.writable, old(store.rows), old(api.members), api.behaviour,
                              k, OgToken(mac, secret, playerId, body.playerToken), body.betaTester, FromOG(body), now);
      && store.rows == o.rows && api.members == o.members
      && hook.sent == old(hook.sent) + [WebhookLogging.Content(hook.palette, o.log.0, o.log.1)]
      && r == Respond(o.reply)
  {
    var conn := store.Connect();
    var client := MakeResponse(conn, InternalError(PoolFailed));
    client := MakeLog(client, Internal, hook);
    if client.Err? {
      return Err(client.error);
    }
    var hmac := new Hmac(Utf8.Encode(secret));
    hmac.Input(Utf8.Encode(playerId));
    hmac.Input(Utf8.Encode(body.playerToken));
    assert hmac.message == Utf8.Encode(playerId) + Utf8.Encode(body.playerToken);
    var code := hmac.Code(mac);
    var token := Hex(code);
    assert token == OgToken(mac, secret, playerId, body.playerToken);
    r := Run(token, body.betaTester, FromOG(body), now, k, store, api, hook);
  }

  /** `update_user(x-distribution-channel, body)`: the MAC gets no input, and the stored beta
      flag says whether the channel is "Beta". */
  method UpdateUser(distributionChannel: string, body: UpdateUserData, secret: string, mac: Mac, now: int,
                    k: RoleHandling.Constants, store: Db.Store, api: Discord.DiscordApi, hook: WebhookLogging.Webhook)
    returns (r: Result<HttpResponse, MyError>)
    requires RoleHandling.ValidRoles(k.roles)
    modifies store, api, hook
    ensures var o := Pipeline(store.online, store.writable, old(store.rows), old(api.members), api.behaviour,
                              k, UpdateToken(mac, secret), distributionChannel == "Beta", body, now);
      && store.rows == o.rows && api.members == o.members
      && hook.sent == old(hook.sent) + [WebhookLogging.Content(hook.palette, o.log.0, o.log.1)]
      && r == Respond(o.reply)
  {
    var conn := store.Connect();
    var client := MakeResponse(conn, InternalError(PoolFailed));
    client := MakeLog(client, Internal, hook);
    if client.Err? {
      return Err(client.error);
    }
    var hmac := new Hmac(Utf8.Encode(secret));
    var code := hmac.Code(mac);
    var token := Hex(code);
    assert token == UpdateToken(mac, secret);
    r := Run(token, distributionChannel == "Beta", body, now, k, store, api, hook);
  }
}
