/**
  `BillingClient.request`: keypair authentication of requests to the
  billing service. A request is rejected unless a private key is stored and
  its method is implemented; otherwise a nonce is written into the request's
  `params` (GET) or `json` (PUT, POST) object, that object is encoded, the
  contract `METHOD\nPATH\nPAYLOAD` is signed, and the request is dispatched
  with the public key and the signature in the `x-pubkey` and `x-signature`
  headers.

  What lies outside the request code is handed in: the stored private key as
  an optional string, the nonce as a string, and in an `Env` the billing base
  URL, the key derivation, the signer and the two encoders.
 */
module BillingClient {
  import opened Wrappers
  import opened Mapping
  import opened Contract

  /** Why a request is rejected before anything is signed or sent. */
  datatype ErrorKind =
    | MissingKey       // "Private key required"
    | NotImplemented   // "Method not implemented"
    | NoPayloadObject  // `options.params` / `options.json` is undefined: the nonce assignment throws

  /** Which request option carries the payload to the transport. */
  datatype Channel = Params | Data

  /** The collaborators of the request code, as given functions and constants. */
  datatype Env = Env(
    billingUrl: string,                  // BILLING_URL
    publicKeyOf: string -> string,       // the public key of the keypair derived from a private key
    sign: (string, string) -> string,    // sign(privateKey, message), the keypair's signature
    queryEncode: Fields -> string,       // qs.stringify
    jsonEncode: Fields -> string)        // JSON.stringify

  /** What is handed to the transport, together with the contract that was signed. */
  datatype SignedRequest = SignedRequest(
    contract: string,
    httpMethod: string,
    url: string,
    channel: Channel,
    data: Fields,
    pubkeyHeader: string,
    signatureHeader: string)

  const ImplementedMethods: seq<string> := ["GET", "PUT", "POST"]

  /** The reserved property under which the nonce travels. */
  const NonceKey: string := "__nonce"

  /** `!privateKey` fails: the key is absent or the empty string. */
  predicate HasKey(storedKey: Option<string>)
  {
    storedKey.Some? && storedKey.value != ""
  }

  /** The object a request of this verb reads, mutates and sends. */
  function Target(verb: string, params: Option<Fields>, json: Option<Fields>): Option<Fields>
  {
    if verb == "GET" then params else json
  }

  /** The payload encoding chosen by the verb. */
  function Encode(env: Env, verb: string, data: Fields): string
  {
    if verb == "GET" then env.queryEncode(data) else env.jsonEncode(data)
  }

  function LowerChar(c: char): char
  {
    if 'A' <= c <= 'Z' then (c as int + 32) as char else c
  }

  /** `String.prototype.toLowerCase` on ASCII text. */
  function Lower(s: string): string
  {
    if s == [] then [] else [LowerChar(s[0])] + Lower(s[1..])
  }

  /**
    The outcome of one call of `request`, as a function of its inputs: the
    stored key, the caller's options and the nonce.
   */
  function Plan(verb: string, path: string, params: Option<Fields>, json: Option<Fields>,
                storedKey: Option<string>, nonce: string, env: Env): Result<SignedRequest, ErrorKind>
  {
    if !HasKey(storedKey) then Failure(MissingKey)
    else if verb !in ImplementedMethods then Failure(NotImplemented)
    else if Target(verb, params, json).None? then Failure(NoPayloadObject)
    else
      var data := SetField(Target(verb, params, json).value, NonceKey, Str(nonce));
      var contract := Join(verb, path, Encode(env, verb, data));
      Success(SignedRequest(
        contract,
        Lower(verb),
        env.billingUrl + path,
        if verb == "GET" then Params else Data,
        data,
        env.publicKeyOf(storedKey.value),
        env.sign(storedKey.value, contract)))
  }

  /** The `options` argument of `request`, whose payload objects the call mutates. */
  class RequestOptions {
    const verb: string
    const path: string
    var params: Option<Fields>
    var json: Option<Fields>

    constructor (verb: string, path: string, params: Option<Fields>, json: Option<Fields>)
      ensures this.verb == verb && this.path == path
      ensures this.params == params && this.json == json
    {
      this.verb := verb;
      this.path := path;
      this.params := params;
      this.json := json;
    }

    /**
      `options.params.__nonce = nonce` for a GET, `options.json.__nonce = nonce`
      otherwise. Fails, changing nothing, when the object to write is absent.
     */
    method InjectNonce(isGet: bool, nonce: string) returns (ok: bool)
      modifies this
      ensures ok <==> (if isGet then old(params) else old(json)).Some?
      ensures isGet ==> json == old(json)
      ensures !isGet ==> params == old(params)
      ensures !ok ==> params == old(params) && json == old(json)
      ensures ok && isGet ==> params == Some(SetField(old(params).value, NonceKey, Str(nonce)))
      ensures ok && !isGet ==> json == Some(SetField(old(json).value, NonceKey, Str(nonce)))
    {
      if isGet {
        ok := params.Some?;
        if ok {
          params := Some(SetField(params.value, NonceKey, Str(nonce)));
        }
      } else {
        ok := json.Some?;
        if ok {
          json := Some(SetField(json.value, NonceKey, Str(nonce)));
        }
      }
    }
  }

  /**
    `BillingClient.request` up to the hand-over to the transport: checks,
    nonce injection into the caller's options, encoding, signing and the
    dispatch record. The result is the one `Plan` describes, and the caller's
    options afterwards hold exactly the object that was sent.
   */
  method BuildSignedRequest(options: RequestOptions, storedKey: Option<string>, nonce: string, env: Env)
    returns (r: Result<SignedRequest, ErrorKind>)
    modifies options
    ensures r == Plan(options.verb, options.path, old(options.params), old(options.json), storedKey, nonce, env)
    ensures r.Failure? ==> options.params == old(options.params) && options.json == old(options.json)
    ensures r.Success? && r.value.channel == Params ==>
              options.params == Some(r.value.data) && options.json == old(options.json)
    ensures r.Success? && r.value.channel == Data ==>
              options.json == Some(r.value.data) && options.params == old(options.params)
  {
    if !HasKey(storedKey) {
      return Failure(MissingKey);
    }
    if options.verb !in ImplementedMethods {
      return Failure(NotImplemented);
    }
    var isGet := options.verb == "GET";
    var privateKey := storedKey.value;
    var publicKey := env.publicKeyOf(privateKey);

    var ok := options.InjectNonce(isGet, nonce);
    if !ok {
      return Failure(NoPayloadObject);
    }

    var data := if isGet then options.params.value else options.json.value;
    var payload := if isGet then env.queryEncode(data) else env.jsonEncode(data);
    var contract := Join(options.verb, options.path, payload);
    var signedContract := env.sign(privateKey, contract);
    var dataType := if isGet then Params else Data;

    r := Success(SignedRequest(contract, Lower(options.verb), env.billingUrl + options.path,
                               dataType, data, publicKey, signedContract));
  }

  // ---------------------------------------------------------------------
  // Properties of a request
  // ---------------------------------------------------------------------

  /** A missing (or empty) key is rejected first, whatever the method and options. */
  lemma RejectsWithoutKey(verb: string, path: string, params: Option<Fields>, json: Option<Fields>,
                          storedKey: Option<string>, nonce: string, env: Env)
    ensures Plan(verb, path, params, json, storedKey, nonce, env) == Failure(MissingKey)
            <==> !HasKey(storedKey)
  {
  }

  /** With a key present, a method outside GET, PUT, POST is rejected, whatever the options. */
  lemma RejectsUnimplementedMethod(verb: string, path: string, params: Option<Fields>, json: Option<Fields>,
                                   storedKey: Option<string>, nonce: string, env: Env)
    ensures Plan(verb, path, params, json, storedKey, nonce, env) == Failure(NotImplemented)
            <==> HasKey(storedKey) && verb !in ["GET", "PUT", "POST"]
  {
  }

  /** A request is signed exactly when the key is there, the method is implemented and its object exists. */
  lemma SignsExactlyWhenValid(verb: string, path: string, params: Option<Fields>, json: Option<Fields>,
                              storedKey: Option<string>, nonce: string, env: Env)
    ensures Plan(verb, path, params, json, storedKey, nonce, env).Success?
            <==> HasKey(storedKey) && verb in ["GET", "PUT", "POST"]
                 && (if verb == "GET" then params else json).Some?
  {
  }

  /**
    The object sent is the caller's object with `__nonce` set to the nonce:
    every other property keeps its value, in its place.
   */
  lemma NonceInjected(verb: string, path: string, params: Option<Fields>, json: Option<Fields>,
                      storedKey: Option<string>, nonce: string, env: Env)
    requires Plan(verb, path, params, json, storedKey, nonce, env).Success?
    ensures var s := Plan(verb, path, params, json, storedKey, nonce, env).value;
            var before := (if verb == "GET" then params else json).value;
            && Lookup(s.data, "__nonce") == Some(Str(nonce))
            && (forall k :: k != "__nonce" ==> Lookup(s.data, k) == Lookup(before, k))
            && (forall i :: 0 <= i < |before| && before[i].0 != "__nonce" ==> s.data[i] == before[i])
  {
  }

  /**
    The signed contract reads back as the method, the path and the encoding
    of the object that is sent, and that object carries the nonce: the nonce
    is covered by the signature.
   */
  lemma ContractCoversNonce(verb: string, path: string, params: Option<Fields>, json: Option<Fields>,
                            storedKey: Option<string>, nonce: string, env: Env)
    requires Newline !in path
    requires Plan(verb, path, params, json, storedKey, nonce, env).Success?
    ensures var s := Plan(verb, path, params, json, storedKey, nonce, env).value;
            var payload := if verb == "GET" then env.queryEncode(s.data) else env.jsonEncode(s.data);
            && Parse(s.contract) == Some((verb, path, payload))
            && Lookup(s.data, NonceKey) == Some(Str(nonce))
  {
    var s := Plan(verb, path, params, json, storedKey, nonce, env).value;
    ParseJoin(verb, path, Encode(env, verb, s.data));
  }

  /**
    For every path, the signed contract is `METHOD\nPATH\nPAYLOAD` with the
    payload the encoding of the object that is sent, and that object
    carries the nonce.
   */
  lemma ContractSignsSentObject(verb: string, path: string, params: Option<Fields>, json: Option<Fields>,
                                storedKey: Option<string>, nonce: string, env: Env)
    requires Plan(verb, path, params, json, storedKey, nonce, env).Success?
    ensures var s := Plan(verb, path, params, json, storedKey, nonce, env).value;
            var payload := if verb == "GET" then env.queryEncode(s.data) else env.jsonEncode(s.data);
            && s.contract == Join(verb, path, payload)
            && Lookup(s.data, NonceKey) == Some(Str(nonce))
  {
  }

  /** The dispatch record: URL, lowercased method, channel, headers. */
  lemma DispatchRecord(verb: string, path: string, params: Option<Fields>, json: Option<Fields>,
                       storedKey: Option<string>, nonce: string, env: Env)
    requires Plan(verb, path, params, json, storedKey, nonce, env).Success?
    ensures var s := Plan(verb, path, params, json, storedKey, nonce, env).value;
            && s.url == env.billingUrl + path
            && s.httpMethod == (if verb == "GET" then "get" else if verb == "PUT" then "put" else "post")
            && (s.channel == Params <==> verb == "GET")
            && s.pubkeyHeader == env.publicKeyOf(storedKey.value)
            && s.signatureHeader == env.sign(storedKey.value, s.contract)
  {
    LowerVerbs();
  }

  /** The lowercase forms of the implemented methods. */
  lemma LowerVerbs()
    ensures Lower("GET") == "get" && Lower("PUT") == "put" && Lower("POST") == "post"
  {
    assert Lower("T") == "t" && Lower("ST") == "st";
  }

  /**
    GET and the other methods are exclusive: a GET never looks at `json`,
    a PUT or POST never looks at `params`.
   */
  lemma OnlyTargetIsRead(verb: string, path: string, params1: Option<Fields>, json1: Option<Fields>,
                         params2: Option<Fields>, json2: Option<Fields>,
                         storedKey: Option<string>, nonce: string, env: Env)
    requires verb == "GET" ==> params1 == params2
    requires verb != "GET" ==> json1 == json2
    ensures Plan(verb, path, params1, json1, storedKey, nonce, env)
            == Plan(verb, path, params2, json2, storedKey, nonce, env)
  {
  }

  /**
    The encoder a method uses tells apart two objects that differ only in
    the nonce they carry.
   */
  ghost predicate NonceSensitive(env: Env, verb: string)
  {
    forall f: Fields, n1: string, n2: string ::
      n1 != n2 ==>
        Encode(env, verb, SetField(f, NonceKey, Str(n1))) != Encode(env, verb, SetField(f, NonceKey, Str(n2)))
  }

  /**
    Two requests that differ only in their nonce sign different contracts,
    provided the encoder keeps the nonce apart.
   */
  lemma DistinctNoncesDistinctContracts(verb: string, path: string, params: Option<Fields>, json: Option<Fields>,
                                        storedKey: Option<string>, nonce1: string, nonce2: string, env: Env)
    requires NonceSensitive(env, verb)
    requires nonce1 != nonce2
    requires Plan(verb, path, params, json, storedKey, nonce1, env).Success?
    ensures Plan(verb, path, params, json, storedKey, nonce2, env).Success?
    ensures Plan(verb, path, params, json, storedKey, nonce1, env).value.contract
            != Plan(verb, path, params, json, storedKey, nonce2, env).value.contract
  {
    var s1 := Plan(verb, path, params, json, storedKey, nonce1, env).value;
    var s2 := Plan(verb, path, params, json, storedKey, nonce2, env).value;
    if s1.contract == s2.contract {
      JoinCancelsPrefix(verb, path, Encode(env, verb, s1.data), Encode(env, verb, s2.data));
      assert false;
    }
  }

  /**
    A receiver that rebuilds the contract from the method, the path and the
    payload it received, and checks the signature with the key in
    `x-pubkey`, accepts the request whenever the signature scheme itself is
    sound.
   */
  lemma ReceiverAccepts(verb: string, path: string, params: Option<Fields>, json: Option<Fields>,
                        storedKey: Option<string>, nonce: string, env: Env,
                        verify: (string, string, string) -> bool)
    requires forall key, msg :: verify(env.publicKeyOf(key), msg, env.sign(key, msg))
    requires Plan(verb, path, params, json, storedKey, nonce, env).Success?
    ensures var s := Plan(verb, path, params, json, storedKey, nonce, env).value;
            verify(s.pubkeyHeader, Join(verb, path, Encode(env, verb, s.data)), s.signatureHeader)
  {
  }
}
