/** The signed object-storage upload (`_upload_to_oss`): fetch a short-lived
    credential, build the OSS canonical string and signed PUT, and judge the
    storage reply. The network replies, the clock and the HMAC-SHA1/base64
    signer are parameters. */
module Oss {
  import opened Text
  import opened Json

  /** The credential fields read from the token reply's `data.file` and
      `data.storage` objects. */
  datatype Credential = Credential(
    objectKey: string,
    accessKeyId: string,
    accessKeySecret: string,
    securityToken: string,
    bucket: string,
    endpoint: string)

  /** The token endpoint's reply: HTTP status, the body's application `code`,
      and the credential carried in its `data`. */
  datatype TokenReply = TokenReply(status: int, code: Value, cred: Credential)

  /** The PUT request sent to object storage. */
  datatype OssPut = OssPut(
    url: string,
    host: string,
    date: string,
    contentType: string,
    contentLength: string,
    securityToken: string,
    authorization: string,
    bodyLength: nat)

  datatype UploadResult = Uploaded(url: string) | CredentialError | UploadError

  /** What one upload did: the token URL it asked, the storage PUTs it sent
      (none or one) and its result. */
  datatype UploadTrace = UploadTrace(tokenUrl: string, puts: seq<OssPut>, result: UploadResult)

  const TokenEndpoint: string := "https://api.bizyair.cn/x/v1/upload/token?file_name="
  const OctetStream: string := "application/octet-stream"
  const TokenHeader: string := "x-oss-security-token:"

  /** The string OSS signs for a PUT: verb, empty Content-MD5, content type,
      date, the security-token header and the resource `/<bucket>/<key>`, one
      per line with no trailing line break. */
  function CanonicalString(contentType: string, date: string, token: string, bucket: string, key: string): string {
    Join(["PUT", "", contentType, date, TokenHeader + token, "/" + bucket + "/" + key], '\n')
  }

  /** Six lines joined by line breaks, written out as one concatenation. */
  lemma JoinSix(a: string, b: string, c: string, d: string, e: string, f: string)
    ensures Join([a, b, c, d, e, f], '\n') == a + "\n" + b + "\n" + c + "\n" + d + "\n" + e + "\n" + f
  {
    var l := [a, b, c, d, e, f];
    assert l[5..] == [f];
    assert Join(l[4..], '\n') == e + "\n" + f by { assert l[4..][1..] == l[5..]; }
    assert Join(l[3..], '\n') == d + "\n" + (e + "\n" + f) by { assert l[3..][1..] == l[4..]; }
    assert Join(l[2..], '\n') == c + "\n" + (d + "\n" + (e + "\n" + f)) by { assert l[2..][1..] == l[3..]; }
    assert Join(l[1..], '\n') == b + "\n" + (c + "\n" + (d + "\n" + (e + "\n" + f))) by { assert l[1..][1..] == l[2..]; }
    assert Join(l, '\n') == a + "\n" + (b + "\n" + (c + "\n" + (d + "\n" + (e + "\n" + f))));
  }

  /** The canonical string written out as one concatenation, in the order of
      the format string at py/bizyair_webapp.py:223. */
  lemma CanonicalLayout(contentType: string, date: string, token: string, bucket: string, key: string)
    ensures CanonicalString(contentType, date, token, bucket, key) ==
      "PUT" + "\n" + "" + "\n" + contentType + "\n" + date + "\n" + (TokenHeader + token) + "\n" + ("/" + bucket + "/" + key)
  {
    JoinSix("PUT", "", contentType, date, TokenHeader + token, "/" + bucket + "/" + key);
  }

  /** When no field holds a line break, the canonical string splits back into
      exactly its six lines, so every field can be read back from it. */
  lemma CanonicalLines(contentType: string, date: string, token: string, bucket: string, key: string)
    requires Free(contentType, '\n') && Free(date, '\n') && Free(token, '\n')
    requires Free(bucket, '\n') && Free(key, '\n')
    ensures Split(CanonicalString(contentType, date, token, bucket, key), '\n') ==
      ["PUT", "", contentType, date, TokenHeader + token, "/" + bucket + "/" + key]
  {
    FreeConcat("/", bucket, '\n');
    FreeConcat("/" + bucket, "/", '\n');
    FreeConcat("/" + bucket + "/", key, '\n');
    FreeConcat(TokenHeader, token, '\n');
    SplitJoin(["PUT", "", contentType, date, TokenHeader + token, "/" + bucket + "/" + key], '\n');
  }

  /** The public URL of an object: `https://<bucket>.<endpoint>/<key>`. */
  function ObjectUrl(cred: Credential): string {
    "https://" + cred.bucket + "." + cred.endpoint + "/" + cred.objectKey
  }

  /** The signed PUT for a payload of `size` bytes: Content-Length is the
      payload size in decimal, and the Authorization header is
      `OSS <key id>:<signature of the canonical string under the secret>`. */
  function SignedPut(cred: Credential, date: string, size: nat, sign: (string, string) -> string): (p: OssPut)
    ensures p.url == ObjectUrl(cred) && p.bodyLength == size
    ensures (forall i :: 0 <= i < |p.contentLength| ==> IsDigit(p.contentLength[i])) &&
      ParseDigits(p.contentLength) == size
    ensures p.authorization == "OSS " + cred.accessKeyId + ":" +
      sign(cred.accessKeySecret, CanonicalString(OctetStream, date, cred.securityToken, cred.bucket, cred.objectKey))
  {
    ParseNatToString(size);
    var canonical := CanonicalString(OctetStream, date, cred.securityToken, cred.bucket, cred.objectKey);
    OssPut(
      ObjectUrl(cred),
      cred.bucket + "." + cred.endpoint,
      date,
      OctetStream,
      NatToString(size),
      cred.securityToken,
      "OSS " + cred.accessKeyId + ":" + sign(cred.accessKeySecret, canonical),
      size)
  }

  /** `_upload_to_oss`: a credential is fetched first; a non-200 status or an
      application code other than 20000 is a credential error and no PUT is
      sent; otherwise one signed PUT is sent, and anything but 200 or 201 back
      is an upload error. Success returns the object's public URL. */
  function Upload(filename: string, size: nat, token: TokenReply, date: string, putStatus: int,
                  sign: (string, string) -> string): (t: UploadTrace)
    ensures t.tokenUrl == TokenEndpoint + filename
    ensures token.status != 200 || !NumEquals(token.code, 20000) ==> t.puts == [] && t.result == CredentialError
    ensures token.status == 200 && NumEquals(token.code, 20000) ==>
      t.puts == [SignedPut(token.cred, date, size, sign)]
    ensures t.result.Uploaded? <==>
      token.status == 200 && NumEquals(token.code, 20000) && (putStatus == 200 || putStatus == 201)
    ensures t.result.Uploaded? ==> t.result.url == ObjectUrl(token.cred) && t.puts[0].url == t.result.url
  {
    var tokenUrl := TokenEndpoint + filename;
    if token.status != 200 || !NumEquals(token.code, 20000) then
      UploadTrace(tokenUrl, [], CredentialError)
    else
      var put := SignedPut(token.cred, date, size, sign);
      if putStatus != 200 && putStatus != 201 then UploadTrace(tokenUrl, [put], UploadError)
      else UploadTrace(tokenUrl, [put], Uploaded(put.url))
  }
}
