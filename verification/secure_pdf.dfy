/**
 * Token-gated PDF delivery: `SecurePDFViewer::get_secure_pdf_url` mints a one-hour token in the
 * transient store, and `SecurePDFEndpoint::serve_secure_pdf` checks a token against the store
 * before streaming the PDF.
 *
 * The transient store is the `TokenStore` class; the clock (`time()`), the random token
 * (`wp_generate_password`), the session (`is_user_logged_in`, `get_current_user_id`), the nonce
 * check, the membership check and the answers of the network and of the file system are inputs.
 */
module SecurePdf {
  import opened Php

  newtype Byte = x: int | 0 <= x < 256

  /** The four bytes every PDF file starts with: "%PDF". */
  const PdfMagic: seq<Byte> := [37, 80, 68, 70]

  const TokenPrefix := "secure_pdf_token_"
  /** Tokens live for one hour, both in the stored `expires` and as the transient's TTL. */
  const TokenLifetime := 3600
  /** The variation ("Ars Botanica Digital") whose PDF is read from a fixed local file. */
  const ArsBotanicaVariation := 222
  const ArsBotanicaFile := "wp-content/uploads/2025/09/Invoice-5BD2600B-0055.pdf"

  datatype TokenData = TokenData(url: string, userId: int, expires: int)

  /** A transient: its value and the TTL it was stored with. */
  datatype Entry = Entry(data: TokenData, ttl: int)

  /** What the endpoint sends back: a JSON error with an HTTP status, or the PDF itself. */
  datatype Response = Error(status: int, message: string) | PdfBody(content: seq<Byte>, contentLength: int)

  /** The answers of cURL (body or false, HTTP code) and of the file system for the stored URL. */
  datatype Fetch = Fetch(
    remoteBody: Option<seq<Byte>>, httpCode: int,
    localExists: bool, localReadable: bool, localContent: Option<seq<Byte>>)

  /** The outcome of the four token checks of `serve_secure_pdf`. */
  datatype Admission = Rejected(status: int, message: string) | Admitted(data: TokenData)

  function TokenKey(token: string): string {
    TokenPrefix + token
  }

  predicate AlphaNum(c: char) {
    'a' <= c <= 'z' || 'A' <= c <= 'Z' || '0' <= c <= '9'
  }

  /** What `wp_generate_password( 32, false )` produces: 32 letters and digits. */
  predicate ValidToken(token: string) {
    |token| == 32 && forall i :: 0 <= i < |token| ==> AlphaNum(token[i])
  }

  // ---------------------------------------------------------------------------------------
  // serve_secure_pdf: the check chain

  /**
   * The checks of `serve_secure_pdf` in their fixed order (empty token, missing entry, expired
   * entry, wrong or absent user); the first that fails decides the status.
   */
  function CheckRequest(entries: map<string, Entry>, token: string, now: int, loggedIn: bool, currentUser: int): (r: Admission)
    ensures r.Admitted? <==>
      && !EmptyStr(token)
      && TokenKey(token) in entries
      && now <= entries[TokenKey(token)].data.expires
      && loggedIn && currentUser == entries[TokenKey(token)].data.userId
    ensures r.Admitted? ==> r.data == entries[TokenKey(token)].data
    ensures r == Rejected(400, "Invalid token") <==> EmptyStr(token)
    ensures r == Rejected(401, "Token expired or invalid") <==> !EmptyStr(token) && TokenKey(token) !in entries
    ensures r == Rejected(401, "Token expired") <==>
      !EmptyStr(token) && TokenKey(token) in entries && now > entries[TokenKey(token)].data.expires
    ensures r == Rejected(403, "Unauthorized access") <==>
      && !EmptyStr(token) && TokenKey(token) in entries && now <= entries[TokenKey(token)].data.expires
      && (!loggedIn || currentUser != entries[TokenKey(token)].data.userId)
  {
    if EmptyStr(token) then Rejected(400, "Invalid token")
    else if TokenKey(token) !in entries then Rejected(401, "Token expired or invalid")
    else
      var data := entries[TokenKey(token)].data;
      if now > data.expires then Rejected(401, "Token expired")
      else if !loggedIn || currentUser != data.userId then Rejected(403, "Unauthorized access")
      else Admitted(data)
  }

  // ---------------------------------------------------------------------------------------
  // serve_pdf_with_headers: fetching and validating the content

  /** `empty()` on the fetched bytes: no bytes, or the single byte "0". */
  predicate EmptyBytes(c: seq<Byte>) {
    c == [] || c == [48]
  }

  /** The content check: non-empty and starting with "%PDF"; the Content-Length is the byte length. */
  function ValidatePdf(content: seq<Byte>): (r: Response)
    ensures r.PdfBody? <==> |content| >= 4 && content[..4] == PdfMagic
    ensures r.PdfBody? ==> r.content == content && r.contentLength == |content|
    ensures r.Error? ==> r.status == 400
    ensures r == Error(400, "Empty PDF content") <==> EmptyBytes(content)
    ensures r == Error(400, "Invalid PDF format") <==> !EmptyBytes(content) && !(|content| >= 4 && content[..4] == PdfMagic)
  {
    if EmptyBytes(content) then Error(400, "Empty PDF content")
    else if |content| < 4 || content[..4] != PdfMagic then Error(400, "Invalid PDF format")
    else PdfBody(content, |content|)
  }

  /** A URL starting with "http" is fetched remotely; anything else is a local path. */
  predicate IsRemote(url: string) {
    IsPrefix("http", url)
  }

  function ServePdfWithHeaders(url: string, f: Fetch): (r: Response)
    ensures IsRemote(url) ==>
      r == (if f.remoteBody.None? || f.httpCode != 200 then Error(404, "PDF not accessible")
            else ValidatePdf(f.remoteBody.value))
    ensures !IsRemote(url) && !f.localExists ==> r == Error(404, "PDF file not found")
    ensures !IsRemote(url) && f.localExists && !f.localReadable ==> r == Error(403, "PDF file not accessible")
    ensures !IsRemote(url) && f.localExists && f.localReadable && f.localContent.None? ==>
      r == Error(500, "Failed to read PDF file")
    ensures !IsRemote(url) && f.localExists && f.localReadable && f.localContent.Some? ==>
      r == ValidatePdf(f.localContent.value)
    ensures r.PdfBody? ==> |r.content| >= 4 && r.content[..4] == PdfMagic && r.contentLength == |r.content|
  {
    if IsRemote(url) then
      if f.remoteBody.None? || f.httpCode != 200 then Error(404, "PDF not accessible")
      else ValidatePdf(f.remoteBody.value)
    else if !f.localExists then Error(404, "PDF file not found")
    else if !f.localReadable then Error(403, "PDF file not accessible")
    else if f.localContent.None? then Error(500, "Failed to read PDF file")
    else ValidatePdf(f.localContent.value)
  }

  // ---------------------------------------------------------------------------------------
  // The store transitions, as functions of the old store

  /** The store after `generate_secure_url` stored a token at time `now`. */
  function Minted(entries: map<string, Entry>, url: string, userId: int, token: string, now: int): map<string, Entry> {
    entries[TokenKey(token) := Entry(TokenData(url, userId, now + TokenLifetime), TokenLifetime)]
  }

  /**
   * `serve_secure_pdf` as written: the response and the store afterwards. Only the expiry
   * branch deletes the entry; a served PDF ends the request (`exit` in `serve_pdf_with_headers`)
   * before the clean-up, so the entry stays.
   */
  function ServeAsWritten(entries: map<string, Entry>, token: string, now: int, loggedIn: bool, currentUser: int, f: Fetch): (r: (Response, map<string, Entry>))
    ensures var c := CheckRequest(entries, token, now, loggedIn, currentUser);
      && (c.Rejected? ==> r.0 == Error(c.status, c.message))
      && (c.Admitted? ==> r == (ServePdfWithHeaders(c.data.url, f), entries))
    ensures r.1 == entries || r.1 == entries - {TokenKey(token)}
    ensures TokenKey(token) in entries && TokenKey(token) !in r.1
        <==> CheckRequest(entries, token, now, loggedIn, currentUser) == Rejected(401, "Token expired")
    ensures CheckRequest(entries, token, now, loggedIn, currentUser) != Rejected(401, "Token expired") ==> r.1 == entries
    ensures r.0.PdfBody? ==> r.1 == entries
  {
    match CheckRequest(entries, token, now, loggedIn, currentUser)
    case Rejected(status, message) =>
      var after := if status == 401 && message == "Token expired" then entries - {TokenKey(token)} else entries;
      (Error(status, message), after)
    case Admitted(data) =>
      (ServePdfWithHeaders(data.url, f), entries)
  }

  /** `serve_secure_pdf` as its clean-up step intends: a served token is deleted. */
  function ServeSingleUse(entries: map<string, Entry>, token: string, now: int, loggedIn: bool, currentUser: int, f: Fetch): (r: (Response, map<string, Entry>))
    ensures var sw := ServeAsWritten(entries, token, now, loggedIn, currentUser, f);
      && r.0 == sw.0
      && r.1 == (if r.0.PdfBody? then sw.1 - {TokenKey(token)} else sw.1)
    ensures r.0.PdfBody? ==> TokenKey(token) !in r.1 && r.1 == entries - {TokenKey(token)}
  {
    var (resp, after) := ServeAsWritten(entries, token, now, loggedIn, currentUser, f);
    if resp.PdfBody? then (resp, after - {TokenKey(token)}) else (resp, after)
  }

  /**
   * Read against the stored entry alone: a freshly minted token is admitted for its owner up
   * to and including `expires` (the comparison is strict), and the entry's own `expires` check
   * rejects it with 401 afterwards. The transient's one-hour TTL is not part of the store.
   */
  lemma MintedTokenWindow(entries: map<string, Entry>, url: string, userId: int, token: string, minted: int, now: int)
    requires ValidToken(token)
    ensures var e := Minted(entries, url, userId, token, minted);
      && (now <= minted + TokenLifetime ==> CheckRequest(e, token, now, true, userId) == Admitted(TokenData(url, userId, minted + TokenLifetime)))
      && (now > minted + TokenLifetime ==> CheckRequest(e, token, now, true, userId) == Rejected(401, "Token expired"))
      && (CheckRequest(e, token, now, false, userId).Rejected?)
  {
    // A 32-character token is neither "" nor "0", so the first check passes.
    assert !EmptyStr(token) by {
      assert |token| == 32;
    }
  }

  /**
   * The token is not single-use: after a successful serve, the same request succeeds again
   * with the same content.
   */
  lemma AsWrittenTokenReplays(entries: map<string, Entry>, token: string, now: int, loggedIn: bool, currentUser: int, f: Fetch)
    requires ServeAsWritten(entries, token, now, loggedIn, currentUser, f).0.PdfBody?
    ensures var (first, after) := ServeAsWritten(entries, token, now, loggedIn, currentUser, f);
      && TokenKey(token) in after
      && ServeAsWritten(after, token, now, loggedIn, currentUser, f).0 == first
  {
  }

  /** With the clean-up in place, a served token is refused with 401 on its next use. */
  lemma SingleUseTokenRefusedAfterServe(entries: map<string, Entry>, token: string, now: int, loggedIn: bool, currentUser: int, f: Fetch, now2: int)
    requires ServeSingleUse(entries, token, now, loggedIn, currentUser, f).0.PdfBody?
    ensures var after := ServeSingleUse(entries, token, now, loggedIn, currentUser, f).1;
      ServeSingleUse(after, token, now2, loggedIn, currentUser, f).0 == Error(401, "Token expired or invalid")
  {
    var after := ServeSingleUse(entries, token, now, loggedIn, currentUser, f).1;
    assert !EmptyStr(token);
    assert TokenKey(token) !in after;
  }

  // ---------------------------------------------------------------------------------------
  // get_secure_pdf_url: the guard chain before a token is minted

  /** A variation as `wc_get_product` returns it: downloadable flag, download file URLs, name. */
  datatype Variation = Variation(downloadable: bool, downloads: seq<string>, name: string)

  /** The request and the framework's answers that `get_secure_pdf_url` consults. */
  datatype ViewerRequest = ViewerRequest(
    nonceValid: bool, loggedIn: bool, userId: int, variationId: int, activeMember: bool,
    variation: Option<Variation>, localFileExists: bool, localFileReadable: bool, absPath: string)

  datatype UrlChoice = Refused(message: string) | PdfUrl(url: string)

  /** Every guard of `get_secure_pdf_url` passes. */
  predicate GuardsPass(q: ViewerRequest) {
    && q.nonceValid && q.loggedIn && q.activeMember
    && q.variation.Some? && q.variation.value.downloadable && q.variation.value.downloads != []
    && (q.variationId == ArsBotanicaVariation ==> q.localFileExists && q.localFileReadable)
  }

  /**
   * The guards in order — nonce, login, membership of plan 667, variation exists,
   * downloadable, has downloads, and for variation 222 the local file — and the URL to protect:
   * the first download's file, or the fixed local file for variation 222.
   */
  function ChoosePdfUrl(q: ViewerRequest): (r: UrlChoice)
    ensures r.PdfUrl? <==> GuardsPass(q)
    ensures r.PdfUrl? ==> r.url == (if q.variationId == ArsBotanicaVariation then q.absPath + ArsBotanicaFile
                                    else q.variation.value.downloads[0])
    ensures r == Refused("Security check failed") <==> !q.nonceValid
    ensures r == Refused("User not logged in") <==> q.nonceValid && !q.loggedIn
    ensures r == Refused("User does not have active membership") <==> q.nonceValid && q.loggedIn && !q.activeMember
    ensures r == Refused("Invalid product") <==> q.nonceValid && q.loggedIn && q.activeMember && q.variation.None?
    ensures r == Refused("Product is not downloadable") <==>
      q.nonceValid && q.loggedIn && q.activeMember && q.variation.Some? && !q.variation.value.downloadable
    ensures r == Refused("No downloads available") <==>
      q.nonceValid && q.loggedIn && q.activeMember && q.variation.Some? && q.variation.value.downloadable
      && q.variation.value.downloads == []
    ensures r == Refused("PDF file not found") <==>
      q.nonceValid && q.loggedIn && q.activeMember && q.variation.Some? && q.variation.value.downloadable
      && q.variation.value.downloads != [] && q.variationId == ArsBotanicaVariation && !q.localFileExists
    ensures r == Refused("PDF file not accessible") <==>
      q.nonceValid && q.loggedIn && q.activeMember && q.variation.Some? && q.variation.value.downloadable
      && q.variation.value.downloads != [] && q.variationId == ArsBotanicaVariation && q.localFileExists
      && !q.localFileReadable
  {
    if !q.nonceValid then Refused("Security check failed")
    else if !q.loggedIn then Refused("User not logged in")
    else if !q.activeMember then Refused("User does not have active membership")
    else if q.variation.None? then Refused("Invalid product")
    else if !q.variation.value.downloadable then Refused("Product is not downloadable")
    else if q.variation.value.downloads == [] then Refused("No downloads available")
    else if q.variationId == ArsBotanicaVariation then
      if !q.localFileExists then Refused("PDF file not found")
      else if !q.localFileReadable then Refused("PDF file not accessible")
      else PdfUrl(q.absPath + ArsBotanicaFile)
    else PdfUrl(q.variation.value.downloads[0])
  }

  /** `add_query_arg` of the action and the token onto the admin-ajax URL. */
  function SecureUrl(ajaxUrl: string, token: string): (r: string)
    ensures IsPrefix(ajaxUrl, r)
    ensures r[|ajaxUrl|..] == (if '?' in ajaxUrl then "&" else "?") + "action=secure_pdf_viewer&secure_pdf_token=" + token
  {
    ajaxUrl + (if '?' in ajaxUrl then "&" else "?") + "action=secure_pdf_viewer&secure_pdf_token=" + token
  }

  datatype JsonReply = JsonError(message: string) | JsonSuccess(secureUrl: string, productName: string)

  // ---------------------------------------------------------------------------------------
  // The transient store

  class TokenStore {
    var entries: map<string, Entry>

    constructor ()
      ensures entries == map[]
    {
      entries := map[];
    }

    /** `generate_secure_url`: store the URL, the user and `now + 3600` under the token, return the token. */
    method GenerateSecureUrl(originalUrl: string, userId: int, token: string, now: int) returns (t: string)
      requires ValidToken(token)
      modifies this
      ensures t == token
      ensures entries == Minted(old(entries), originalUrl, userId, token, now)
      ensures entries.Keys == old(entries).Keys + {TokenKey(token)}
    {
      entries := entries[TokenKey(token) := Entry(TokenData(originalUrl, userId, now + TokenLifetime), TokenLifetime)];
      t := token;
    }

    /** `serve_secure_pdf`: the check chain, then the content, with the store changes as written. */
    method ServeSecurePdf(token: string, now: int, loggedIn: bool, currentUser: int, f: Fetch) returns (r: Response)
      modifies this
      ensures (r, entries) == ServeAsWritten(old(entries), token, now, loggedIn, currentUser, f)
      ensures r.PdfBody? ==> entries == old(entries)
    {
      if EmptyStr(token) {
        return Error(400, "Invalid token");
      }
      var key := TokenKey(token);
      if key !in entries {
        return Error(401, "Token expired or invalid");
      }
      var data := entries[key].data;
      if now > data.expires {
        entries := entries - {key};
        return Error(401, "Token expired");
      }
      if !loggedIn || currentUser != data.userId {
        return Error(403, "Unauthorized access");
      }
      r := ServePdfWithHeaders(data.url, f);
      // The clean-up `delete_transient` that follows in the source is never reached:
      // serving ends the request.
    }

    /** `serve_secure_pdf` with the clean-up step taking effect after a served PDF. */
    method ServeSecurePdfSingleUse(token: string, now: int, loggedIn: bool, currentUser: int, f: Fetch) returns (r: Response)
      modifies this
      ensures (r, entries) == ServeSingleUse(old(entries), token, now, loggedIn, currentUser, f)
      ensures r.PdfBody? ==> entries == old(entries) - {TokenKey(token)}
    {
      r := ServeSecurePdf(token, now, loggedIn, currentUser, f);
      if r.PdfBody? {
        entries := entries - {TokenKey(token)};
      }
    }
  }

  /**
   * `get_secure_pdf_url`: on success exactly one entry is minted and the reply carries the
   * secure URL; every refusal leaves the store untouched.
   */
  method GetSecurePdfUrl(store: TokenStore, q: ViewerRequest, token: string, now: int, ajaxUrl: string) returns (r: JsonReply)
    requires ValidToken(token)
    modifies store
    ensures r.JsonSuccess? <==> GuardsPass(q)
    ensures r.JsonSuccess? ==>
      && store.entries == Minted(old(store.entries), ChoosePdfUrl(q).url, q.userId, token, now)
      && r.secureUrl == SecureUrl(ajaxUrl, token)
      && r.productName == q.variation.value.name
    ensures r.JsonError? ==> r.message == ChoosePdfUrl(q).message && store.entries == old(store.entries)
  {
    match ChoosePdfUrl(q)
    case Refused(message) =>
      r := JsonError(message);
    case PdfUrl(url) =>
      var t := store.GenerateSecureUrl(url, q.userId, token, now);
      r := JsonSuccess(SecureUrl(ajaxUrl, t), q.variation.value.name);
  }
}
