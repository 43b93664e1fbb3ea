# Verified model of the TCK server

The Hedera C++ SDK ships a JSON-RPC server (`src/tck`) through which a test suite asks the SDK to make keys and to create,
update and delete accounts. This project models that server in Dafny and proves what it does, for every request, every
nesting of keys and every run. `dafny verify dfyconfig.toml` checks all of it.

Three parts are modelled, and then put together:

- **The key-request engine** (`KeyRequest`, `Hex`, `HederaKeys`, `KeyHelper`; proofs in `KeyHelperProofs`, `KeyLogProofs`).
  A request is a tree of leaf keys, key lists and threshold keys. Every level is written to hex and read back by a decoder
  that tries a public key, then a private key, then a protobuf message. The proofs flatten the tree into its nodes in
  depth-first order and show that the recursion is a scan of that list: which requests succeed, which error is raised,
  which private keys are logged, and that the returned text decodes to a key tree defined on its own.
- **The dispatcher** (`JsonRpcException`, `JsonTypeMapper`, `TckServer`; proofs in `JsonTypeMapperProofs`,
  `TckServerProofs`, `TckParameterProofs`, `TckRefusalProofs`, `TckAnswerProofs`, `TckRunProofs`). Functions are registered
  under names, requests are validated, named parameters are put in order, two layers of checks convert them, errors are
  rewritten, and batches are answered.
  A registered function is a signature and any body at all: a function from the history of calls and the arguments to a
  result or an exception.
- **The account functions** (`CommonTransactionParams`, `Transaction`, `SdkClient`; proofs in `SdkClientProofs`,
  `SdkFieldProofs`, `SdkValueProofs`). Optional arguments become setters on a transaction that is then frozen, signed and
  submitted.
- **Together** (`GenerateKeyParameters`, `ServedKeys`, `KeyStreamProofs`, `AccountHandlers`, `AccountMembers`,
  `ServedAccounts`, `Deployment`, `DeployedExamples`): the server as `main.cc` sets it up, with the account functions as
  handlers. The theorems go from any call of generateKey that is let through, named or positional, to the key tree or the
  first fault in the response, and from the JSON members of an account call to the fields of its transaction.

What OpenSSL, the protobuf library and the text forms of IDs do, and the order in which the compiler evaluates arguments, is
a parameter, `HederaKeys.Backend`. Its laws are
`HederaKeys.Lawful`: generated keys have the algorithm asked for, keys survive their encodings, a serialised message that is
not nested beyond the library's limit parses back to itself, and a serialised list does not start like a DER sequence.
`LawfulBackend.InstanceIsLawful` shows that these laws can be met together, for any limit. That the three encodings are never
mistaken for one another is proved, not assumed. The results about lists ask that the keys inside them stay within the limit;
`KeyHelperProofs.HeightDecides` turns that into the request's own height, and `KeyHelperProofs.HeightLimit` shows that the
limit is exact for a library that keeps to it (`HederaKeys.Strict`, which `LawfulBackend.InstanceIsStrict` shows can be met).

The conversions that these parts are made of have statements of their own, in terms of characters, numbers and JSON members:
which texts are hex (`Hex.HexExactly`), which requests are valid (`TckAnswerProofs.ValidExactly`), what is read from common
parameters (`CommonTransactionParams.ReadExactly`), what a client is told for each exception (`TckAnswerProofs.FailedBody`),
and what each field of a transaction holds (`SdkValueProofs`).

C++ behaviour that is undefined is a value of the model (`Rpc.Undefined`, `NoBehaviour`, `Crash`), not a precondition, so
the proofs say exactly when it is reached.

## Where the code differs from its comments or from JSON-RPC 2.0

The model follows the code:

- A request for an Ed25519 private key generates an ECDSA key (`src/tck/src/KeyHelper.cc:133`). `KeyHelperProofs` has the
  request (`Ed25519Example`) and the exact condition: a leaf becomes a key of the algorithm it names if and only if it is no
  Ed25519 private key and a key given to it has that algorithm (`PrivateKeyAlgorithm`, `LeafAlgorithm`, `TreeAlgorithms`).
- The text of a key may be in either case, except that the prefix of a public key is recognised in upper case only
  (`HederaKeys.PrivateKeyInAnyCase`, `PublicKeyInAnyCase`).
- A threshold of 0 comes back as a plain list, and a negative one as a number near 2^32 (`KeyHelperProofs.ThresholdKept`).
- A list that is nested more deeply than protobuf reads is accepted, but its text does not decode to it:
  `KeyHelperProofs.TooDeep` is such a request for every limit, and `HeightLimit` the exact condition on the request.
- Some faults in parameters are reported as an internal error: an unknown key type, although a handler for it is there, a
  malformed transaction ID and a signer that is not a key, before the function is called, and an unknown type or an
  unreadable key after that. `TckRefusalProofs.RefusedParameters` and `ServedKeys.InternalServed` say exactly when, on the
  request's JSON and on the nodes of the tree asked for; `DeployedExamples.UnknownNested`, `UnknownRoot` and
  `UnreadableKey` are such requests.
- With several parameters that cannot be converted, which error is reported depends on the compiler
  (`TckRefusalProofs.RefusedInOrder`); `DeployedExamples.Mixed` is a request that is answered with either code.
- A comment says that a present optional parameter is checked like any other. The check compares the parameter's index with
  the size of the parameter itself (`src/tck/include/JsonTypeMapper.h:146`). For strings, booleans and lists the second
  layer makes up for it (`JsonTypeMapperProofs.KindSoundness`); for objects and integers it does not, and `ObjectLeak`,
  `IntegerLeak` and `OptionalInteger` say exactly what passes. `ObjectLeakExample` is a text taken for parameters, and
  `DeployedExamples.WrappedAssociations` is a createAccount
  call whose number wraps around.
- A 32-bit integer that is checked is checked against its maximum only (`JsonTypeMapperProofs.CheckedInteger32`).
- A positional list that is not empty and too short is read out of range (`JsonTypeMapperProofs.IndexSafety`,
  `TckParameterProofs.DefinedBehaviour`); `DeployedExamples.TooShort` is such a request.
- A notification that fails is answered, and a batch is always answered with a list, even an empty one
  (`TckServerProofs.ResponseEnvelope`, `TckServerProofs.NoContent`); JSON-RPC 2.0, sections 4.1 and 6, ask for silence.

## Model

| member | source | states |
|---|---|---|
| KeyHelperProofs.ListRequest | src/tck/src/KeyHelper.cc:164-193 | A list or threshold request, nested at any depth whose parts the protobuf library reads, fails with the fault of its first faulty node in depth-first order; if no node is faulty its text decodes to the key tree of the same shape, order and thresholds, with public keys for private ones, if the whole can be read. The log is that of the nodes before the first fault and the keys generated are those of the nodes up to it, on success and on failure |
| KeyHelperProofs.ListRequestLimit | src/tck/src/KeyHelper.cc:164-193 | With a library that keeps to its nesting limit, the text of an accepted list without empty messages decodes to its key tree if and only if the tree is within the limit |
| KeyHelperProofs.HeightDecides | src/tck/src/KeyHelper.cc:180-192 | For a request without addresses the nesting of the encoded key is the height of the request |
| KeyHelperProofs.HeightLimit | src/tck/src/KeyHelper.cc:164-193 | A request without addresses, unreadable keys or empty lists, whose nodes have the fields of their types and whose children are within the limit in height, is accepted, and its text decodes to its key tree if and only if its own height is within the limit |
| KeyHelperProofs.TooDeep | src/tck/src/KeyHelper.cc:180-192 | Half the limit plus one key lists around a key: accepted, and not decoding to the key tree asked for |
| KeyHelperProofs.LeafRequest | src/tck/src/KeyHelper.cc:128-224 | A leaf at the root succeeds or fails by its own node and logs nothing; its text is the address, or decodes to the very private key made or public key made or given |
| KeyHelperProofs.AddressRequest | src/tck/src/KeyHelper.cc:195-217 | An evmAddress request with fromKey is answered with the address of that public key, or of that private key's public key, if the text decodes to an ECDSA key; it fails as not being ECDSA if and only if the text decodes to anything else, and as undecodable if and only if it does not decode |
| KeyHelperProofs.NewAddressRequest | src/tck/src/KeyHelper.cc:219-223 | Without fromKey the address is that of a new ECDSA key, which is not logged |
| KeyHelperProofs.FaultKinds | src/tck/src/KeyHelper.cc:103-178 | Which fault a node has, by its fields and its position, for every kind but addresses |
| KeyHelperProofs.AddressFaultKinds | src/tck/src/KeyHelper.cc:195-217 | The same for an address and what its key decodes to |
| KeyHelperProofs.PrivateKeyAlgorithm | src/tck/src/KeyHelper.cc:130-142 | The answer to a private-key request is an ECDSA key, so of the algorithm named if and only if that is ECDSA |
| KeyHelperProofs.Ed25519Example | src/tck/src/KeyHelper.cc:130-142 | A request for a new Ed25519 private key is answered with an ECDSA key |
| KeyHelperProofs.TreeAlgorithms | src/tck/src/KeyHelper.cc:130-162 | Every key leaf of an accepted tree is of the algorithm it names if and only if it is no Ed25519 private key and a key given to it is of that algorithm |
| KeyHelperProofs.Acceptance | src/tck/src/KeyHelper.cc:101-231 | A request tree, its inner keys within the nesting limit, is accepted if and only if no node of it has a fault of its own |
| KeyHelperProofs.AcceptanceByShape | src/tck/src/KeyHelper.cc:103-224 | Where given keys and addresses can be read, a tree is accepted if and only if every node has fromKey only on public keys and addresses, threshold exactly on threshold keys, and keys exactly on lists |
| KeyHelperProofs.ThresholdKept | src/tck/src/KeyHelper.cc:164-193 | The threshold of the decoded key is the requested one modulo 2^32, and it is encoded as a plain list exactly for 0 |
| KeyLogProofs.PrivateKeyLog | src/tck/src/KeyHelper.cc:130-193 | The leaves of the decoded key, within the nesting limit, from left to right, paired with the keys they were generated from, give the private-key log in the same order; each logged key belongs to its leaf |
| KeyLogProofs.SitePositions | src/tck/src/KeyHelper.cc:128-193 | Keys are generated in depth-first order, one for each generating leaf, without gaps |
| KeyLogProofs.KeysAfterFailure | src/tck/src/KeyHelper.cc:180-224 | A failed list request has generated the keys of the nodes before the first faulty one, and one more exactly if that is a generated address that does not decode as a key |
| KeyHelper.ProcessKeyRequest | src/tck/src/KeyHelper.cc:101-231 | The imperative form: result, generated keys and the text pushed onto the log are those of the specification |
| KeyHelper.ProcessChildren | src/tck/src/KeyHelper.cc:180-184 | The loop that decodes each child before the next is processed, with the log kept when it is left early |
| KeyHelper.ProcessAllSplit | src/tck/src/KeyHelper.cc:180-184 | The loop can be cut anywhere: the second part runs from the keys and the log of the first, unless that failed |
| KeyHelper.GenerateKeyResponse | src/tck/src/SdkClient.cc:161-169 | The response has the key, and the private keys if any were logged |
| HederaKeys.ListHexRoundTrip | src/tck/src/KeyHelper.cc:79-98 | A serialised list is not taken for a public or private key, and decodes to itself with private keys published |
| HederaKeys.PublicDerRoundTrip | src/sdk/main/src/PublicKey.cc:36-49 | A public key's DER text decodes to that key, by the first alternative |
| HederaKeys.PrivateDerRoundTrip | src/sdk/main/src/PrivateKey.cc:44-75 | A private key's DER text is not taken for a public key, and decodes to that key |
| HederaKeys.PrivateKeyInAnyCase | src/sdk/main/src/PrivateKey.cc:44-75 | The DER text of a valid private key in any case of its digits, lower case for one, is read as that key with and without 0x; so does getHederaKey without 0x |
| HederaKeys.PrivateKeyInLowerCase | src/sdk/main/src/PrivateKey.cc:44-75 | In particular the text that is written for it, in lower case |
| HederaKeys.PublicKeyInAnyCase | src/sdk/main/src/PublicKey.cc:36-49 | The DER text of a valid public key in any case of its digits is read as that key if and only if its prefix is in upper case |
| HederaKeys.PrivateKeyMessage | src/sdk/main/src/ED25519PrivateKey.cc:172-181 | A private key is written as its public key, an Ed25519 key of 32 zeros as itself |
| HederaKeys.GetHederaKeyValid | src/tck/src/KeyHelper.cc:79-98 | Whatever text is decoded, the key can be encoded again |
| HederaKeys.MessageFaults | src/sdk/main/src/Key.cc:32-50 | A message is a key if and only if every message in it that is no list is one; otherwise the first that is not, in reading order, decides the exception |
| HederaKeys.TextFaults | src/tck/src/KeyHelper.cc:79-98 | A text that is neither DER form is read as a message if it is hex, and is no key otherwise |
| HederaKeys.ProtobufRoundTrip | src/sdk/main/src/KeyList.cc:79-108 | Writing a key of any nesting as a message and reading it publishes it and changes nothing else |
| HederaKeys.DepthExactly | src/sdk/main/src/KeyList.cc:79-108 | A list is two messages above its deepest key, a threshold key three, an empty list one and an empty threshold key two |
| Hex.HexRoundTrip | src/sdk/main/src/impl/HexConverter.cc:34-76 | Bytes written as hex read back as the same bytes |
| Hex.HexExactly | src/sdk/main/src/impl/HexConverter.cc:59-76 | A text is read if and only if it is an even number of digits 0-9, A-F or a-f; writing the bytes gives the text in upper case |
| KeyRequest.WriteThenRead | src/tck/include/KeyHelper.h:149-245 | For every tree, reading what was written gives the tree with each present but empty list of keys made absent, at any depth |
| KeyRequest.NormalForm | src/tck/include/KeyHelper.h:149-173 | That normalisation is idempotent and does not change what is written |
| KeyRequest.ReadThenWrite | src/tck/include/KeyHelper.h:181-245 | A JSON value is accepted if and only if every node in it is well formed; otherwise the first ill-formed node in reading order decides the exception; writing an accepted value back restricts it, recursively, to the members that mean something |
| KeyRequest.ReadFaults | src/tck/include/KeyHelper.h:181-245 | Reading fails with exactly the fault of the first faulty node of the flattened value |
| KeyRequest.UnknownTypeNode | src/tck/include/KeyHelper.h:189-203 | A node has an unknown type if and only if its type is a string other than the seven names |
| KeyRequest.NodeFaultKinds | src/tck/include/KeyHelper.h:181-245 | Each of the six faults of a node, if and only if its member has it and the earlier ones do not |
| KeyRequest.KeyTypeNames | src/tck/src/KeyHelper.cc:45-64 | The two tables of key types are inverse to each other |
| KeyRequest.WriteJson | src/tck/include/KeyHelper.h:149-173 | The imperative writer, which pushes children in a loop, is the recursive specification |
| KeyRequest.ReadJson | src/tck/include/KeyHelper.h:181-245 | The imperative reader, which stops at the first fault, is the recursive specification |
| JsonRpcException.ErrorObjectInversion | src/tck/src/TckServer.cc:252-269 | fromJson of the error object that the server emits is the exception it caught: same code, message and data |
| JsonRpcException.ParseThenEmit | src/tck/src/JsonRpcException.cc:28-43 | Emitting a parsed error object gives back its members if and only if its code is a signed integer within 16 bits and its message a string |
| JsonTypeMapperProofs.FirstFault | src/tck/include/JsonTypeMapper.h:253-256 | The checks pass exactly when the list is long enough and every parameter passes; otherwise the earliest failing parameter is reported, or the list is read out of range exactly when all it has passes |
| JsonTypeMapperProofs.CheckExactly | src/tck/include/JsonTypeMapper.h:137-206 | What is checked passes if and only if it is of its type's kind and in the checked range; the fault names the kind expected and the kind found, or the range |
| JsonTypeMapperProofs.MessageExamples | src/tck/include/JsonTypeMapper.h:111-206 | The texts of such faults, with the kinds in their places |
| JsonTypeMapperProofs.PrepareMeaning | src/tck/include/JsonTypeMapper.h:245-262 | A function is called exactly when the list is empty and all parameters are optional, or every parameter is accepted by both layers; its arguments are the conversions, in the order of the parameters, whatever the order of evaluation |
| JsonTypeMapperProofs.AllConverted | src/tck/include/JsonTypeMapper.h:258-259 | If a conversion throws, what is reported is the first one to throw in the compiler's order |
| JsonTypeMapperProofs.IndexSafety | src/tck/include/JsonTypeMapper.h:251-259 | Parameters are read out of range exactly for a list that is not empty, too short, and without a failing check |
| JsonTypeMapperProofs.KindSoundness | src/tck/include/JsonTypeMapper.h:137-234 | A string, boolean or list parameter, optional or not, at every index, is never accepted with the wrong kind |
| JsonTypeMapperProofs.ReadableExactly | src/tck/include/JsonTypeMapper.h:137-234 | A flag, a text, a list of key requests or an object of common parameters is accepted if and only if it is of its kind and can be read, at every index, and the argument is its value |
| JsonTypeMapperProofs.NullExactly | src/tck/include/JsonTypeMapper.h:137-234 | Null is accepted if and only if the type is optional, as an empty optional |
| JsonTypeMapperProofs.ObjectLeak | src/tck/include/JsonTypeMapper.h:140-151 | A value that is not an object is taken for an object parameter exactly when that is optional and the value's size does not exceed its index |
| JsonTypeMapperProofs.ObjectLeakExample | src/tck/include/JsonTypeMapper.h:140-151 | The text "x" as the last parameter of createAccount is taken for common parameters |
| JsonTypeMapperProofs.IntegerLeak | src/tck/include/JsonTypeMapper.h:140-195 | A value of the wrong kind is taken for an integer exactly when that is optional, not first, and the value is a float, or a boolean for 32 bits; the argument is the float's integral part, wrapped around, or 0 or 1 |
| JsonTypeMapperProofs.CheckedInteger64 | src/tck/include/JsonTypeMapper.h:140-195 | A 64-bit integer that is checked, such as an optional one in first position, accepts exactly the JSON integers of its type, and keeps their value |
| JsonTypeMapperProofs.CheckedInteger32 | src/tck/include/JsonTypeMapper.h:140-195 | A 32-bit integer that is checked accepts exactly the parsed integers up to its maximum; the value is kept exactly when it is not below the minimum |
| JsonTypeMapperProofs.OptionalInteger | src/tck/include/JsonTypeMapper.h:140-151 | An optional integer that is not first is always accepted, and keeps its value exactly when it fits |
| JsonTypeMapperProofs.PreparedSuits | src/tck/include/JsonTypeMapper.h:216-259 | What a function is called with has the types of its signature, and integers are in range |
| TckServerProofs.ResponseEnvelope | src/tck/src/TckServer.cc:182-325 | A request is answered with nothing exactly when it is a valid notification of a registered function that succeeds; otherwise with version 2.0, its valid ID or null, and exactly one of result and error |
| TckServerProofs.ResultExactly | src/tck/src/TckServer.cc:220-237 | A response has a result exactly when a registered method succeeded, and it is what the method returned |
| TckServerProofs.ErrorReadBack | src/tck/src/TckServer.cc:252-325 | The error a client reads from a response is the one the catch clauses reported |
| TckAnswerProofs.FailedBody | src/tck/src/TckServer.cc:252-362 | The JSON answer when a function that was called throws: -32001, "Hedera error" and data with status and text for a failed receipt or precheck; its own code, message and data for a JSON-RPC exception, with an index in the data of INVALID_PARAMS replaced by a parameter's name; -32602 for one about a JSON value; -32603 with the text for any other |
| Json.DecimalDenotes | src/tck/src/TckServer.cc:398-406 | The digits of an index denote it, without leading zeros |
| TckAnswerProofs.ValidExactly | src/tck/src/TckServer.cc:192-219 | A request is valid if and only if it keeps four rules on its members; otherwise the first rule that it breaks is the fault |
| TckAnswerProofs.InvalidAnswered | src/tck/src/TckServer.cc:192-219 | The JSON answer to an invalid request: -32600 with the text of the first broken rule and the request's ID if that is valid, and no call |
| TckAnswerProofs.UnknownAnswered | src/tck/src/TckServer.cc:225-243 | A name that is not in the table its ID selects: -32601 with the name, and no call |
| TckAnswerProofs.IdExactly | src/tck/src/TckServer.cc:185-189 | The ID that comes back is the request's if that is a number or a text, and null otherwise |
| TckAnswerProofs.ParamsExactly | src/tck/src/TckServer.cc:222 | Absent and null parameters and an empty object become an empty list, any others are kept |
| TckAnswerProofs.NoRequestAnswered | src/tck/src/TckServer.cc:155-178 | Text that cannot be parsed is answered with -32700 and a value that is neither object nor list with -32600, with a null ID and no call |
| TckServerProofs.RunOnce | src/tck/src/TckServer.cc:182-248 | A request enters one function at most, once, and exactly when it is valid, its name is in the table its ID selects, and its parameters convert; otherwise nothing changes |
| TckServerProofs.BatchCalls | src/tck/src/TckServer.cc:130-143 | The calls of a batch are those of its requests, in order |
| TckServerProofs.BatchRefinement | src/tck/src/TckServer.cc:130-143 | The reply to a batch is the list of the answers to its requests handled one by one, without the null ones; its length is the batch's less the successful notifications; the final history is the sequential one |
| TckServerProofs.BatchNonObjects | src/tck/src/TckServer.cc:130-143 | An element of a batch that is not an object is answered with INVALID_REQUEST and a null ID |
| TckServerProofs.NoContent | src/tck/src/TckServer.cc:109-179 | No content is sent exactly for a single object whose result is null; a batch always gets a list |
| TckParameterProofs.NamedEqualsPositional | src/tck/src/TckServer.cc:365-390 | A non-empty object of parameters gives the same response and the same call as the list of the declared names' values, null where absent |
| TckParameterProofs.OnlyDeclaredMatter | src/tck/src/TckServer.cc:382-389 | Two objects that agree on the declared names are handled alike |
| TckParameterProofs.EmptyObjectAgreement | src/tck/src/TckServer.cc:221-235 | `{}`, which skips normalisation, and an object of undeclared members give the same call if all parameters are optional; otherwise both are refused as INVALID_PARAMS without a call |
| TckParameterProofs.EmptyObjectRequests | src/tck/src/TckServer.cc:221-247 | The same for whole requests, by what the client reads |
| TckParameterProofs.EarliestFaultNamed | src/tck/src/TckServer.cc:397-406 | A named call with a failing parameter makes no call, and its error names the earliest declared parameter that fails |
| TckParameterProofs.InvalidOrUnknown | src/tck/src/TckServer.cc:193-244 | An invalid request reads back as INVALID_REQUEST and an unknown function as METHOD_NOT_FOUND, without a call |
| TckRefusalProofs.RefusedParameters | src/tck/src/TckServer.cc:328-394 | Whenever a valid request for a registered function is not called and stays within its list, whatever the order in which its parameters are converted: the client reads INTERNAL_ERROR if all checks pass and every parameter that cannot be converted is a list of key requests whose first faulty node has an unknown type, or common parameters whose first fault is a malformed transaction ID or a signer that is not a key; INVALID_PARAMS if none is; one of the two otherwise |
| TckRefusalProofs.RefusedInOrder | src/tck/include/JsonTypeMapper.h:253-259 | For a given order of evaluation it is INTERNAL_ERROR if and only if all checks pass and the first parameter in that order that cannot be converted is such a one |
| TckParameterProofs.DefinedBehaviour | src/tck/src/TckServer.cc:182-406 | With declared lists as long as the signatures, the behaviour of a request is undefined exactly for a positional list that is too short; the lookup of a failed parameter's name is always in range |
| TckRunProofs.RegistryExactly | src/tck/src/TckServer.cc:57-100 | After any additions a table holds for a name the first function added to it under an unreserved name, and the parameter names are the first non-empty ones an accepted addition brought, across both tables |
| TckRunProofs.ReservedExactly | src/tck/src/TckServer.cc:60-63 | No function can be added under a name if and only if "rpc." occurs in it |
| TckRunProofs.AddKeeps | src/tck/src/TckServer.cc:57-100 | An addition keeps the registry sound (no reserved name; parameter lists non-empty and of registered names) and changes nothing stored |
| TckRunProofs.RunSafe | src/tck/src/TckServer.cc:57-325 | Over any run of additions and inputs with any functions: the registry stays sound and only grows, the history only grows, by at most one call a request, and every call is of a registered function with arguments of its types |
| TckRunProofs.RunSafeFromStart | src/tck/src/TckServer.cc:57-325 | All of that from an empty server on |
| TckRunProofs.RunCalls | src/tck/src/TckServer.cc:123-248 | The history of a run is exactly the calls of its requests, in order; what functions return has no influence on it |
| TckServer.TckServer.AddMethod | src/tck/src/TckServer.cc:57-77 | Adds the function and its parameter names, or rejects it and changes nothing |
| TckServer.TckServer.AddNotification | src/tck/src/TckServer.cc:80-100 | The same for the other table |
| TckServer.TckServer.NormalizeParameters | src/tck/src/TckServer.cc:365-394 | The loop over the declared names yields the positional list |
| TckServer.TckServer.ExecuteFunction | src/tck/src/TckServer.cc:328-362 | Normalises, checks, converts, calls and rethrows as specified; the history gains the call exactly when the function is entered |
| TckServer.TckServer.HandleSingleRequest | src/tck/src/TckServer.cc:182-325 | The whole new history and the response are those of the specification |
| TckServer.TckServer.HandleBatchRequest | src/tck/src/TckServer.cc:130-143 | The loop that pushes the answers that are not null is the recursive specification |
| TckServer.TckServer.HandleJsonRequest | src/tck/src/TckServer.cc:123-179 | Batches, single requests, other values and malformed text are answered as specified |
| TckServer.TckServer.HandleHttpRequest | src/tck/src/TckServer.cc:109-120 | Status 204 and unchanged content for no response, status 200 and the response otherwise |
| CommonTransactionParams.WriteThenRead | src/tck/include/CommonTransactionParams.h:135-253 | Reading what was written gives the parameters with an empty list of signers absent, if and only if the transaction ID's text reads back as that ID |
| CommonTransactionParams.FirstFaultThrown | src/tck/include/CommonTransactionParams.h:177-253 | Reading fails with exactly the first fault of the members and signers in reading order |
| CommonTransactionParams.ReadExactly | src/tck/include/CommonTransactionParams.h:177-253 | A value is read if and only if each present member has its kind, the ID can be parsed and every signer is the text of a private key; each parameter is then its member's own value, a signed or unsigned number itself if it fits 64 bits |
| CommonTransactionParams.FaultsExactly | src/tck/include/CommonTransactionParams.h:179-210 | The faults of the ID and of the two numbers, each if and only if its member has it and the earlier ones do not |
| CommonTransactionParams.LaterFaultsExactly | src/tck/include/CommonTransactionParams.h:212-232 | The same for the memo and the flag |
| CommonTransactionParams.SignersFaultExactly | src/tck/include/CommonTransactionParams.h:234-257 | The same for the list of signers |
| CommonTransactionParams.SignerFaultKinds | src/tck/include/CommonTransactionParams.h:234-257 | Of the signers the first that is no text, or no key, decides |
| CommonTransactionParams.WriteJson | src/tck/include/CommonTransactionParams.h:135-169 | The member-by-member writer with its loop over signers is the specification, null when nothing is written |
| CommonTransactionParams.ReadJson | src/tck/include/CommonTransactionParams.h:177-253 | The member-by-member reader with its loop over signers is the specification, with the first fault |
| Transaction.Transaction.Set | src/sdk/main/src/Transaction.cc:597-649 | A setter stores its value, or throws and changes nothing once the transaction is frozen |
| Transaction.Transaction.FreezeWith | src/sdk/main/src/Transaction.cc:472-524 | Freezing is idempotent, needs an operator if there is no ID yet, and gives the transaction an ID |
| Transaction.Transaction.Sign | src/sdk/main/src/Transaction.cc:1258-1280 | A signature throws before freezing; a key that has signed is not added again |
| Transaction.Transaction.Execute | src/sdk/main/src/Transaction.cc:1184-1204 | Freezes if needed, throws if the client validates checksums and an account fails, and signs for the operator exactly if it pays |
| SdkClientProofs.CallMeaning | src/tck/src/SdkClient.cc:55-158 | The history of any call, for every combination of optional arguments: all settings in source order, one freeze, one signature for each signer in order, the operator's if it pays, one submission; or the first exception, of an argument, of freezing or of a checksum, and exactly what preceded it |
| SdkClientProofs.AccountCallsKeepProtocol | src/tck/include/CommonTransactionParams.h:52-89 | None of the three calls, whatever it is given, edits a frozen transaction or signs an unfrozen one |
| SdkClientProofs.EmptySignersAreAbsent | src/tck/include/CommonTransactionParams.h:81-88 | An empty list of signers, which freezes early, has the effect of no list |
| SdkClientProofs.FinalSettings | src/sdk/main/src/AccountCreateTransaction.cc:114-131 | A field is set exactly when some setter is the last to set or reset it, and holds its value |
| SdkClientProofs.SignatoriesMeaning | src/sdk/main/src/Transaction.cc:1245-1280 | The signatories are the signers' public keys, each once |
| SdkValueProofs.CreatedFields | src/tck/src/SdkClient.cc:67-123 | After a successful createAccount each field is the argument of its name by value, or unset: flags, texts, periods and numbers themselves, the key that getHederaKey decodes, the account that its text parses to, the twenty bytes of the alias's forty digits; a node to stake to replaces an account |
| SdkValueProofs.UpdatedFields | src/tck/src/SdkClient.cc:225-282 | The same for updateAccount |
| SdkValueProofs.DeletedFields | src/tck/src/SdkClient.cc:137-153 | The same for deleteAccount |
| SdkValueProofs.CommonFieldsKept | src/tck/include/CommonTransactionParams.h:54-77 | In every call the common parameters are the values of the fields of their names |
| SdkValueProofs.CreateThrows | src/tck/src/SdkClient.cc:67-123 | createAccount ends with an argument's exception, before it freezes anything, if and only if its key, its account to stake to or its alias cannot be read, and with that of the first of them in this order |
| SdkValueProofs.UpdateThrows | src/tck/src/SdkClient.cc:225-282 | The same for updateAccount: its account, its key, its account to stake to |
| SdkValueProofs.DeleteThrows | src/tck/src/SdkClient.cc:137-153 | The same for deleteAccount: its account, the account to transfer to |
| SdkValueProofs.PayerSigns | src/sdk/main/src/Transaction.cc:1184-1204 | A submitted transaction has the given ID or a new one of the operator's, and right before the submission the operator signs if and only if its account is that ID's payer |
| SdkValueProofs.ChecksumsExactly | src/sdk/main/src/Transaction.cc:1191-1195 | A client that validates checksums rejects a transaction if and only if one of its three account fields holds an account that fails |
| SdkValueProofs.ChecksumsDecide | src/sdk/main/src/Transaction.cc:1184-1204 | A call whose arguments can be read ends with a checksum's exception if and only if its transaction was frozen and is rejected |
| SdkValueProofs.StoreMeaning | src/sdk/main/src/AccountCreateTransaction.cc:114-131 | A setter changes its own field, and of the two fields to stake to unsets the other; nothing else |
| SdkClient.FillOutTransaction | src/tck/include/CommonTransactionParams.h:52-89 | The conditional setters, the freeze and the loop of signatures leave the state that the specification gives, or its exception |
| SdkClient.CreateAccount | src/tck/src/SdkClient.cc:55-123 | The new transaction's whole state and the exception are those of the script of createAccount |
| SdkClient.UpdateAccount | src/tck/src/SdkClient.cc:213-284 | The same for updateAccount |
| SdkClient.DeleteAccount | src/tck/src/SdkClient.cc:133-157 | The same for deleteAccount |
| GenerateKeyParameters.ArgumentsExactly | src/tck/include/JsonTypeMapper.h:216-259 | generateKey is called with the fields of a tree if and only if its list of parameters, named or positional, reads as the tree: a known type name, a key text or null, a number or null, a list of well-formed requests or null |
| GenerateKeyParameters.NamedTree | src/tck/include/KeyHelper.h:181-245 | The named parameters that are a request tree read as that tree |
| ServedKeys.AsksExactly | src/tck/src/TckServer.cc:365-394 | A call asks for a tree if and only if its parameters, once in order, read as the tree |
| ServedKeys.Served | src/tck/src/TckServer.cc:182-248 | Every call of generateKey that is let through is answered with the engine's result on the tree its arguments say, from where earlier calls left the stream of keys, or with the unknown type |
| ServedKeys.ListKeyServed | src/tck/src/SdkClient.cc:161-169 | From JSON to JSON: the response to a list or threshold request without a faulty node, within the nesting limit, carries a key that decodes to the tree asked for, and its private keys in leaf order |
| ServedKeys.FaultServed | src/tck/src/TckServer.cc:252-325 | The response to a request with a faulty node, within the nesting limit, is an error with the code and text of the first one in depth-first order, and the stream of keys is left where it stopped |
| ServedKeys.InternalExactly | src/tck/src/KeyHelper.cc:67-98 | Once called with a tree within the nesting limit, or with an unknown type, generateKey answers with INTERNAL_ERROR if and only if the type name is unknown, or the first faulty node of the tree, in depth-first order, has a given private key that cannot be read or a text that does not decode |
| ServedKeys.InternalServed | src/tck/src/TckServer.cc:309-324 | The same for the client's answer to any call of generateKey that is let through |
| KeyStreamProofs.NeverShared | src/tck/src/KeyHelper.cc:130-162 | Over any run, no two calls take the same generated key |
| KeyStreamProofs.TakesExactly | src/tck/src/KeyHelper.cc:130-224 | What a generateKey call within the nesting limit takes of the stream is exactly the positions of its tree's generating nodes up to the first faulty one |
| KeyStreamProofs.OthersTakeNothing | src/tck/src/KeyHelper.cc:130-224 | A call of any other function takes none of it |
| ServedAccounts.CreateServed | src/tck/src/SdkClient.cc:55-128 | A createAccount call whose parameters are accepted makes its transaction from the JSON members of the declared names, converted; each field holds the member of its name when the transaction is submitted; it ends at the first argument that cannot be read; and the JSON answer is the network's response, the status and text of its failed receipt or precheck, or an internal error with the text of what was thrown |
| ServedAccounts.UpdateServed | src/tck/src/SdkClient.cc:213-288 | The same for updateAccount |
| ServedAccounts.DeleteServed | src/tck/src/SdkClient.cc:133-158 | The same for deleteAccount |
| ServedAccounts.NothingRequired | src/tck/src/main.cc:34-67 | Without parameters each account function is called with none of its arguments |
| ServedKeys.WrittenAsks | src/tck/include/KeyHelper.h:149-173 | What the writer makes of a tree asks for the tree's normal form |
| Deployment.AddFunctions | src/tck/src/main.cc:34-67 | The registry after start-up is that of the six additions in order |
| Deployment.MatchingIsAligned | src/tck/src/main.cc:34-67 | Any additions whose parameter lists match their signatures, in any order, give a registry with no undefined behaviour for named parameters |
| Deployment.AccountsTame | src/tck/src/SdkClient.cc:55-158 | What the account functions throw, for every client and network, carries no data that the server would take for a failed check |
| Deployment.KnowsGenerateKey | src/tck/src/main.cc:50 | The deployed server has generateKey with its types and parameter names |
| Deployment.KnowsAccounts | src/tck/src/main.cc:34-67 | The deployed server has the account functions with theirs |
| Deployment.SetupExactly | src/tck/src/main.cc:51-53 | A list of five parameters is accepted for setup if and only if the first two are texts and each of the others is a text or null |
| Deployment.DeployedIsDefined | src/tck/src/main.cc:34-67 | On the deployed server only a positional list that is too short leads to undefined behaviour |
| DeployedExamples.TooShort | src/tck/include/JsonTypeMapper.h:253-256 | generateKey with the positional list ["keyList"] reads out of range |
| DeployedExamples.UnknownNested | src/tck/include/KeyHelper.h:195-203 | A key list with a child of type "nope" is answered with INTERNAL_ERROR, without a call |
| DeployedExamples.UnknownRoot | src/tck/src/KeyHelper.cc:67-76 | generateKey of type "nope" is answered with INTERNAL_ERROR, after a call |
| DeployedExamples.UnreadableKey | src/tck/src/KeyHelper.cc:147-150 | An Ed25519 public key from the text "nope" is answered with INTERNAL_ERROR |
| DeployedExamples.Mixed | src/tck/include/JsonTypeMapper.h:258-259 | ["keyList", 5, null, [{"type": "nope"}]] is answered with INVALID_PARAMS if conversion goes from left to right, and with INTERNAL_ERROR if it goes from right to left |
| DeployedExamples.ExplicitNulls | src/tck/include/JsonTypeMapper.h:216-234 | Explicit nulls, which a nested key request may not have, stand for absent parameters of generateKey itself |
| DeployedExamples.WrappedAssociations | src/tck/include/JsonTypeMapper.h:140-151 | A createAccount request with 2147483648 for maxAutoTokenAssociations makes a call with -2147483648 |

## Left out

- TckServer.HandleSingle: the handler's own state is the history of calls; a body's outcome may depend on it in any way, but a body that keeps other state is not told apart.
- TckServer.ProcessTypeError: the text of the library's own exception is shortened, as are those of OpenSSL and of out_of_range, and the exceptions of a private key's text all have one text.
- JsonTypeMapper.Convert: a float outside the integer type's range is narrowed like an integer; in C++ that conversion is undefined.
- HederaKeys.Lawful: what is read of a message nested beyond the limit is not modelled, only that it is not the same key (Strict, for messages without empty parts).
- KeyHelper.ResponseJson: the response is kept as a record of its two members while it is built, not as a JSON object that is updated in place.
- Transaction.AddSignatory: signatories are a list; the SDK keeps them in an unordered map.
- SdkClient.GivenExpirationTime: overflow in the conversion of seconds to the clock's duration is not modelled.
- Transaction.ExecuteOn: it ends at the submission; retries, node selection and the receipt are the network's outcome, a parameter of the handlers; which checksums are right is the client's.
- TckRunProofs.Run: a run goes on after an input that left the defined behaviour; this only adds runs to those the results cover.
- JSON text parsing and dumping, the HTTP listener and console output are library I/O; a request is a JSON value or a parse error.
- JsonRpcException's what() text is not modelled; nothing reads it.
- Float parameters are not modelled; no registered function has one.
- setup and reset configure the network client; they are bodies about which nothing is assumed but that what they throw carries no data of a failed check, and the client that they leave is a function of the calls.
- Key generation, DER and protobuf bytes, and the text forms of account and transaction IDs are the backend's, under the laws named above.
