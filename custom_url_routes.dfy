/** The custom-URL routes: `POST /set-url` (create or overwrite the caller's
    URL), `PUT /update-url` (overwrite an existing one), `DELETE /delete-url`,
    `GET /get-url` (the caller's URL) and `GET /get-url/:qrId` (the URL of the
    QR code's owner). The CustomURL collection is a table keyed by user, so a
    user has at most one record. The QR collection is the map `qrs` from a QR
    code's `randomId` to its owner. */
module CustomUrlRoutes {
  import opened Common
  import opened CustomUrlSchema

  const UrlRequired: string := "URL is required"
  const NoCustomUrlFound: string := "No custom URL found"
  const NoCustomUrlSetYet: string := "No custom URL set yet"
  const QrNotFound: string := "QR not found"
  const NoCustomUrlForQr: string := "No custom URL set for this QR"

  datatype UrlReply =
    | UrlBadRequest(message: string)
    | UrlNotFound(message: string)
    | UrlSaved(url: string)
    | UrlUpdated(url: string)
    | UrlDeleted
    | UrlFound(url: string)
  {
    /** The HTTP status code of the reply. */
    function Code(): nat
    {
      match this
      case UrlBadRequest(_) => 400
      case UrlNotFound(_) => 404
      case _ => 200
    }
  }

  /** Each record sits under its own user's key. */
  ghost predicate KeyedByUser(table: map<UserId, CustomUrl>)
  {
    forall u :: u in table ==> table[u].user == u
  }

  /** The set-url effect: the user's record gets the new URL, or a new record
      is created; every other user's record is kept. */
  function Upsert(table: map<UserId, CustomUrl>, user: UserId, url: string, now: int): (r: map<UserId, CustomUrl>)
    ensures r.Keys == table.Keys + {user}
    ensures r[user].url == url
    ensures user in table ==> r[user] == table[user].(url := url)
    ensures user !in table ==> r[user] == NewCustomUrl(user, url, now)
    ensures forall u :: u in table && u != user ==> r[u] == table[u]
  {
    if user in table then table[user := table[user].(url := url)]
    else table[user := NewCustomUrl(user, url, now)]
  }

  /** Setting the same URL twice leaves the table as setting it once, whatever
      the clock says the second time. */
  lemma UpsertIdempotent(table: map<UserId, CustomUrl>, user: UserId, url: string, now: int, later: int)
    ensures Upsert(Upsert(table, user, url, now), user, url, later) == Upsert(table, user, url, now)
  {
    var once := Upsert(table, user, url, now);
    var twice := Upsert(once, user, url, later);
    assert twice.Keys == once.Keys;
    assert twice[user] == once[user].(url := url) == once[user];
    forall u | u in once
      ensures twice[u] == once[u]
    {
    }
  }

  /** After set-url the key's record is the caller's, so the table stays keyed
      by user and the caller has exactly one record, with the new URL. */
  lemma UpsertKeepsKeyedByUser(table: map<UserId, CustomUrl>, user: UserId, url: string, now: int)
    requires KeyedByUser(table)
    ensures KeyedByUser(Upsert(table, user, url, now))
    ensures var r := Upsert(table, user, url, now);
      user in r && r[user].user == user && r[user].url == url &&
      forall u :: u in r && r[u].user == user ==> u == user
  {
  }

  /** `GET /get-url`: the caller's URL, or 404. */
  function OwnUrl(table: map<UserId, CustomUrl>, user: UserId): (r: UrlReply)
    ensures r.UrlFound? <==> user in table
    ensures r.UrlFound? ==> r.url == table[user].url
    ensures !r.UrlFound? ==> r == UrlNotFound(NoCustomUrlSetYet)
  {
    if user in table then UrlFound(table[user].url) else UrlNotFound(NoCustomUrlSetYet)
  }

  /** `GET /get-url/:qrId`: look the QR code up, then its owner's URL. */
  function UrlForQr(qrs: map<string, UserId>, table: map<UserId, CustomUrl>, qrId: string): (r: UrlReply)
    ensures r == UrlNotFound(QrNotFound) <==> qrId !in qrs
    ensures r == UrlNotFound(NoCustomUrlForQr) <==> qrId in qrs && qrs[qrId] !in table
    ensures r.UrlFound? <==> qrId in qrs && qrs[qrId] in table
    ensures r.UrlFound? ==> r.url == table[qrs[qrId]].url
    ensures r.UrlFound? || r.UrlNotFound?
  {
    if qrId !in qrs then UrlNotFound(QrNotFound)
    else if qrs[qrId] !in table then UrlNotFound(NoCustomUrlForQr)
    else UrlFound(table[qrs[qrId]].url)
  }

  class CustomUrlCollection {
    var table: map<UserId, CustomUrl>

    /** One record per user, under its key; every stored URL is non-empty and
        every threshold within 1..5. */
    ghost predicate Valid()
      reads this
    {
      && KeyedByUser(table)
      && forall u :: u in table ==> table[u].url != "" && 1 <= table[u].redirectFromRating <= 5
    }

    constructor ()
      ensures Valid() && table == map[]
    {
      table := map[];
    }

    /** `POST /set-url`. */
    method SetUrl(user: UserId, url: Option<string>, now: int) returns (reply: UrlReply)
      requires Valid()
      modifies this
      ensures Valid()
      ensures !Truthy(url) ==> reply == UrlBadRequest(UrlRequired) && table == old(table)
      ensures Truthy(url) ==> reply == UrlSaved(url.value) && table == Upsert(old(table), user, url.value, now)
    {
      if !Truthy(url) {
        reply := UrlBadRequest(UrlRequired);
        return;
      }
      if user in table {
        var existing := table[user];
        table := table[user := existing.(url := url.value)];
      } else {
        table := table[user := NewCustomUrl(user, url.value, now)];
      }
      reply := UrlSaved(url.value);
    }

    /** `PUT /update-url`: the URL check first, then the lookup. */
    method UpdateUrl(user: UserId, url: Option<string>) returns (reply: UrlReply)
      requires Valid()
      modifies this
      ensures Valid()
      ensures !Truthy(url) ==> reply == UrlBadRequest(UrlRequired) && table == old(table)
      ensures Truthy(url) && user !in old(table) ==> reply == UrlNotFound(NoCustomUrlFound) && table == old(table)
      ensures Truthy(url) && user in old(table) ==>
        reply == UrlUpdated(url.value) && table == old(table)[user := old(table)[user].(url := url.value)]
    {
      if !Truthy(url) {
        reply := UrlBadRequest(UrlRequired);
        return;
      }
      if user !in table {
        reply := UrlNotFound(NoCustomUrlFound);
        return;
      }
      var existing := table[user];
      table := table[user := existing.(url := url.value)];
      reply := UrlUpdated(url.value);
    }

    /** `DELETE /delete-url`. */
    method DeleteUrl(user: UserId) returns (reply: UrlReply)
      requires Valid()
      modifies this
      ensures Valid()
      ensures user !in old(table) ==> reply == UrlNotFound(NoCustomUrlFound) && table == old(table)
      ensures user in old(table) ==> reply == UrlDeleted && table == old(table) - {user}
    {
      if user !in table {
        reply := UrlNotFound(NoCustomUrlFound);
        return;
      }
      table := table - {user};
      reply := UrlDeleted;
    }
  }
}
