# Keypair-signed requests to the billing service

This project models `BillingClient.request` from the bridge-gui-vue web client.
That method authenticates a request to the billing service by signing it with the user's keypair:

1. It rejects the request when no private key is stored ("Private key required").
2. It rejects the request when the method is not GET, PUT or POST ("Method not implemented").
3. It writes a fresh nonce under the reserved property `__nonce`. For a GET it goes into the caller's `params` object; otherwise it goes into the `json` object.
4. It encodes that object with `qs.stringify` (GET) or `JSON.stringify` (PUT, POST).
5. It signs the contract `METHOD\nPATH\nPAYLOAD`.
6. It sends the request to `BILLING_URL + path` with the lowercased method. The object goes in `params` or `data`. The headers `x-pubkey` and `x-signature` carry the public key and the signature.

The Dafny modules:

- `Wrappers`: `Option` and `Result`.
- `Mapping`: a JavaScript object as an ordered list of properties with distinct keys. `Lookup` models a property read. `SetField` models a property assignment: an existing key keeps its place, and a new key is appended.
- `Contract`: `Join` builds the contract. `SplitFirst` and `Parse` are how a receiver splits the contract back into method, path and payload.
- `BillingClient`:
  - `Plan` is a pure function giving the outcome of one call.
  - `RequestOptions` is a class for the caller's `options`. Its `params` and `json` fields are changed in place by `InjectNonce`.
  - `BuildSignedRequest` is the step-by-step method. Its result is proved equal to `Plan`, and its contract states the caller's options afterwards.
  - Lemmas state the properties of `Plan`.

Everything outside the request code is an input:

- The stored private key is an `Option<string>`.
- The nonce is a string.
- An `Env` value holds the billing base URL, the public key of the keypair derived from a private key, the signer, and the two encoders.

The model follows the code as written:

- `!privateKey` is a JavaScript truthiness test, so an empty stored key is rejected like a missing one (`HasKey`).
- The code checks the key before the method. A missing key therefore wins even for an unsupported method.
- The code writes `options.params.__nonce` or `options.json.__nonce` without checking that the object exists. An absent object makes the assignment throw, and the returned promise rejects. The model gives this third outcome its own error kind, `NoPayloadObject`. It happens after both checks and before anything is signed.
- The encoders keep the object's property order, and a new `__nonce` property comes last. The code does not impose a canonical key order.

## Model

| member | source | states |
|---|---|---|
| `Mapping.SetField` | src/api/index.js:65-69 | for a key that is not an array index: after `obj.__nonce = nonce` the property reads the nonce; every other key reads as before and keeps its position; the key list is unchanged if the key existed, else the key is appended last; distinct keys are preserved |
| `Mapping.SetFieldIdempotent` | src/api/index.js:65-69 | assigning the same value to the same property twice equals assigning it once |
| `Mapping.SetFieldLastWins` | src/api/index.js:65-69 | when `__nonce` is already present, the new assignment replaces the old value and nothing else changes |
| `Contract.SplitFirst` | src/api/index.js:77 | returns nothing exactly when the text has no newline; otherwise returns the newline-free first line and the rest, which rejoin to the input |
| `Contract.Parse` | src/api/index.js:77 | a parsed contract has a newline-free method and path, and joining the three parts gives back the contract |
| `Contract.SplitFirstJoin` | src/api/index.js:77 | splitting `a + "\n" + b` at its first newline gives `a` and `b` when `a` has no newline |
| `Contract.ParseJoin` | src/api/index.js:77 | for a newline-free method and path, the receiver recovers method, path and payload exactly from the joined contract, whatever the payload holds |
| `Contract.JoinInjective` | src/api/index.js:77 | for newline-free methods and paths, equal contracts imply equal method, path and payload |
| `Contract.JoinAmbiguousWithNewlinePath` | src/api/index.js:77 | with a newline in the path, two different path/payload splits join to the same contract, so the newline condition is needed |
| `BillingClient.RequestOptions.constructor` | src/api/index.js:13-17 | the options object holds the given method, path, `params` and `json` |
| `BillingClient.RequestOptions.InjectNonce` | src/api/index.js:65-69 | a GET sets `__nonce` in `params` and leaves `json` alone; any other method sets it in `json` and leaves `params` alone; if the object to write is absent, it fails and changes nothing |
| `BillingClient.BuildSignedRequest` | src/api/index.js:38-93 | the result equals `Plan` of the old options, key and nonce; on rejection the options are unchanged; on success the selected option now holds exactly the object that was sent and the other option is unchanged |
| `BillingClient.RejectsWithoutKey` | src/api/index.js:42-46 | the result is the missing-key rejection if and only if no non-empty key is stored, whatever the method and options |
| `BillingClient.RejectsUnimplementedMethod` | src/api/index.js:39-50 | the result is the not-implemented rejection if and only if a key is present and the method is not GET, PUT or POST |
| `BillingClient.SignsExactlyWhenValid` | src/api/index.js:42-69 | a request is signed if and only if a key is present, the method is implemented and the object for its method exists |
| `BillingClient.NonceInjected` | src/api/index.js:52-69 | the object sent is the caller's selected object with `__nonce` set to the nonce; every other property keeps its value and position |
| `BillingClient.ContractCoversNonce` | src/api/index.js:65-80 | for a newline-free path, the signed contract parses back as method, path and the encoding of the sent object, and that object carries the nonce |
| `Contract.JoinCancelsPrefix` | src/api/index.js:77 | two contracts with the same method and path are equal only if their payloads are, for any path |
| `BillingClient.ContractSignsSentObject` | src/api/index.js:65-80 | for every path, the signed contract is method, path and the encoding of the object that is sent, joined by newlines, and that object carries the nonce |
| `BillingClient.DispatchRecord` | src/api/index.js:54-92 | URL is `BILLING_URL + path`; method is `get`/`put`/`post`; the channel is `params` if and only if the method is GET; `x-pubkey` is the derived public key; `x-signature` is the signature of the contract |
| `BillingClient.LowerVerbs` | src/api/index.js:86 | `toLowerCase` maps GET, PUT, POST to get, put, post |
| `BillingClient.OnlyTargetIsRead` | src/api/index.js:52-88 | a GET's outcome does not depend on `json`, and a PUT's or POST's outcome does not depend on `params` |
| `BillingClient.DistinctNoncesDistinctContracts` | src/api/index.js:62-77 | if the method's encoder tells apart objects that differ only in their nonce, then two requests that differ only in the nonce sign different contracts, for any path |
| `BillingClient.ReceiverAccepts` | src/api/index.js:32-92 | if the signature scheme verifies every signature under its own public key, then a receiver accepts the request: it rebuilds the contract from method, path and received payload and checks `x-signature` against `x-pubkey` |

## Left out

- Dispatch through `axios` and the promise plumbing (src/api/index.js:41, 85-95) are I/O, so the model stops at the request handed to the transport. Line 95 reads `(err) =< reject(err)`, which is not a valid arrow function. The catch chain is therefore not modelled.
- Reading the key with `fromLocalStorage` (line 42) is modelled by the `storedKey` input.
- `Storj`, `generateKeyPair`, `getPublicKey` and `keypair.sign` (lines 54-59, 80) are foreign cryptography. They are the functions `publicKeyOf` and `sign` in `Env`, both taken to be deterministic. Whether a real verifier accepts a real signature is only a hypothesis of `ReceiverAccepts`.
- These calls are also assumed never to throw. In the code, a throw there rejects the request after both checks. Causes include a missing global `Storj` (line 1) and a stored key the library refuses. The model turns every non-empty key into a signed request and has no error kind for these failures.
- `BillingClient.ReceiverAccepts`: the receiver is assumed to receive the sent object unchanged and to encode it as the client does. The transport is not modelled. For a GET, axios serializes `params` with its own serializer and drops null-valued entries, so the received query can differ from the signed payload.
- `uuid()` (line 62) is modelled by the `nonce` input. Nonce uniqueness cannot be stated inside one call.
- The internals of `qs.stringify` and `JSON.stringify` (lines 73-74) are not modelled. They are the functions `queryEncode` and `jsonEncode` in `Env`. `Value` holds only null, booleans, integers and strings. Nested objects, arrays and floating-point numbers cannot be represented.
- The error classes in `errors` (lines 45, 49) are never imported. The model keeps only the error kinds.
- `BillingClient.LowerVerbs`: `Lower` covers only ASCII letters, not Unicode case mapping. It is applied only to GET, PUT or POST.
- Options whose `method` or `path` is not a string are not modelled. An example is an undefined path, which `join` turns into an empty string.
- A `params` or `json` option that is a primitive value rather than an object is not modelled.
- `Mapping.SetField`: only keys that are not array indices are modelled. JavaScript lists array-index keys such as `"0"` first, in numeric order, which the model does not capture. The only key the request code assigns is `__nonce`, which is not an array index.
- The sent object is the same JavaScript object as the caller's `options.params` or `options.json`. The model captures this as equality of values after the call, not as aliasing.
- src/config.js is not part of this model: `BILLING_URL` is the `billingUrl` input. src/store/index.js is not part of this model either: it is UI state wiring.
