# shoploc back end: client login and order lines, modelled in Dafny

This project models two parts of the shoploc e-commerce back end.

- **Client login controller** (`/client` endpoints). A session starts anonymous. A correct
  password e-mails a one-time code and leaves the session pending. Submitting exactly that
  code connects the session as a client. Logout clears everything. The login page and the
  dashboard branch on whether the session is connected as a client.
- **Order-line service**. It creates, reads, lists, updates and deletes order lines. Each
  write first resolves the line's product id and optional order id against the product and
  order tables. A missing id raises a not-found error that names it.

Files:

- `wrappers.dfy`: `Option`, `Result` and `Outcome`. A Java `null` is `None`. A thrown exception is `Failure`/`Fail`.
- `decimal.dfy`: the decimal rendering of an id inside an error message, and reading it back.
- `session_manager.dfy`: the login attributes of an HTTP session and the session-manager
  operations the controller calls. The session manager's code is not part of this model.
  Its operations have the meaning the controller relies on:
  - `setUserToVerify` stores the e-mail, user type and code, not connected;
  - `setUserAsConnected` stores the e-mail and user type, consumes the code and marks the session connected;
  - `setUserAsDisconnected` clears every attribute;
  - `getConnectedUserEmail` returns the one e-mail attribute. Before verification that is the
    e-mail stored by `setUserToVerify`; `verify` relies on this when it connects the session
    (ClientLoginController.java:130). The model keeps a single e-mail attribute, not separate
    pending and connected ones;
  - `getVerificationCode` returns the pending code, or null when there is none;
  - `isUserConnectedAsClient` holds when the session is connected and its user type is `client`.
- `client_login.dfy`: class `ClientLoginController`. It holds the session and the e-mails
  sent, with one method per endpoint. The collaborators are parameters of the endpoints:
  - client lookup: the `clients` map;
  - password verifier: the `passwordMatches` function;
  - code generator: `generatedCode`;
  - mail sender: the `outbox` field, and `mailDelivered` for its failure;
  - user lookup: the `users` map;
  - client creation: `created`.
- `order_line_model.dfy`: entities, request and response objects, the not-found error, and
  the id-to-entity converters. It also holds the two mappings: request to entity and entity to response.
- `order_line_queries.dfy`: the read-only operations as functions of the order-line table.
- `order_line_service.dfy`: class `OrderLineService`. Its order-line table is a map field.
  The product and order tables are constant fields. The store's identity generator is the
  `nextId` field. Create, update and delete modify the table.

Three behaviours of the code that a reader might not expect, which the model keeps:

- The dashboard answers 401 with a login url, not a redirect.
- Registration fails only when client creation returns null. Duplicate-email detection
  belongs to the client service, which is not part of this model.
- `POST /verify` does not look at the pending user type. A code stored for any user type
  connects the session as a client. The contract of `ClientLogin.ClientLoginController.Verify`
  places no condition on the stored type.

## Model

| member | source | states |
|---|---|---|
| `ClientLogin.ClientLoginController.LoginPage` | src/main/java/nextech/shoploc/controllers/auth/ClientLoginController.java:46-57 | FOUND with url `/client/dashboard` exactly when the session is connected as client, otherwise OK with url `/client/login`; the session is not modified |
| `ClientLogin.ClientLoginController.Login` | src/main/java/nextech/shoploc/controllers/auth/ClientLoginController.java:59-75 | unknown e-mail and wrong password both give UNAUTHORIZED with the same login error and leave session and mail untouched; a mail failure propagates and leaves them untouched; success e-mails the generated code, stores email, type `client` and that same code as pending (not connected), answers OK with url `/client/verify`; a login never connects a session |
| `ClientLogin.ClientLoginController.RegisterPage` | src/main/java/nextech/shoploc/controllers/auth/ClientLoginController.java:77-82 | OK with url `/client/register` |
| `ClientLogin.ClientLoginController.Register` | src/main/java/nextech/shoploc/controllers/auth/ClientLoginController.java:84-95 | BAD_REQUEST with the register error exactly when creation yields null, else FOUND with url `/client/login`; never touches the session |
| `ClientLogin.ClientLoginController.Dashboard` | src/main/java/nextech/shoploc/controllers/auth/ClientLoginController.java:97-110 | OK exactly when connected as client, carrying the user found for the connected e-mail (or null); otherwise UNAUTHORIZED with the unauthorized error and url `/client/login` |
| `ClientLogin.ClientLoginController.Logout` | src/main/java/nextech/shoploc/controllers/auth/ClientLoginController.java:112-119 | from any session state the session becomes anonymous (not connected) and the answer is OK with url `/client/login` |
| `ClientLogin.ClientLoginController.Verify` | src/main/java/nextech/shoploc/controllers/auth/ClientLoginController.java:121-140 | succeeds exactly when the submitted code equals the saved code (no saved code never matches): session connected as client for the pending e-mail, OK with url `/client/dashboard`; otherwise UNAUTHORIZED with the verification error and the session left as it was |
| `ClientLogin.TwoFactorJourney` | src/main/java/nextech/shoploc/controllers/auth/ClientLoginController.java:59-140 | on a fresh session: after a correct password the dashboard is still refused, a wrong code is refused, the e-mailed code opens the dashboard, and after logout the dashboard is refused again; exactly one mail with that code is sent |
| `SessionManager.SetUserToVerify` | src/main/java/nextech/shoploc/controllers/auth/ClientLoginController.java:66 | the pending session holds the e-mail and code and is not connected as client |
| `SessionManager.SetUserAsConnected` | src/main/java/nextech/shoploc/controllers/auth/ClientLoginController.java:130 | the session is connected, as client when given type `client`, and no code remains pending |
| `Decimal.ReadShow` | src/main/java/nextech/shoploc/services/orderLine/OrderLineServiceImpl.java:39-42 | the decimal text of an id (with a leading `-` when negative), as concatenated into the not-found message, reads back as that id |
| `Decimal.ShowInjective` | src/main/java/nextech/shoploc/services/orderLine/OrderLineServiceImpl.java:39-42 | distinct ids, negative ones included, give distinct decimal texts |
| `OrderLineModel.MessageInjective` | src/main/java/nextech/shoploc/services/orderLine/OrderLineServiceImpl.java:39-42 | two not-found messages for the same kind of entity are equal only when they name the same id |
| `OrderLineModel.MessageNamesId` | src/main/java/nextech/shoploc/services/orderLine/OrderLineServiceImpl.java:39-42 | a not-found message is "<Entity> not found with ID: " followed by text that reads back as the missing id |
| `OrderLineModel.ProductById` | src/main/java/nextech/shoploc/services/orderLine/OrderLineServiceImpl.java:39-40 | the product converter succeeds iff the id is stored, with the stored product; otherwise NotFound for that product id |
| `OrderLineModel.OrderById` | src/main/java/nextech/shoploc/services/orderLine/OrderLineServiceImpl.java:41-42 | the order converter succeeds iff the id is stored, with the stored order; otherwise NotFound for that order id |
| `OrderLineModel.ToEntity` | src/main/java/nextech/shoploc/services/orderLine/OrderLineServiceImpl.java:45-53 | request-to-entity mapping succeeds iff the product exists and the order exists when one is named; a missing order is reported first, then a missing product; on success the entity holds the stored product, the stored order (a null order id keeps the entity's order), the quantity and the given id |
| `OrderLineModel.ResponseEchoesRequest` | src/main/java/nextech/shoploc/services/orderLine/OrderLineServiceImpl.java:55-60 | mapping a request to an entity and the entity to a response gives back the request's product id, order id and quantity |
| `OrderLineQueries.FindOrderLine` | src/main/java/nextech/shoploc/services/orderLine/OrderLineServiceImpl.java:81-87 | fails with NotFound naming the id iff the id is absent; otherwise returns the mapped stored line |
| `OrderLineQueries.IdsBelow` | src/main/java/nextech/shoploc/services/orderLine/OrderLineServiceImpl.java:113 | the table's listing holds every stored id below the bound, only stored ids, in strictly ascending order (so each once) |
| `OrderLineQueries.IdsBelowCount` | src/main/java/nextech/shoploc/services/orderLine/OrderLineServiceImpl.java:113 | the listing has as many entries as there are stored ids below the bound |
| `OrderLineQueries.IdsOfOrder` | src/main/java/nextech/shoploc/services/orderLine/OrderLineServiceImpl.java:104 | keeps exactly the listed ids whose line belongs to the order, in ascending order |
| `OrderLineQueries.LineIdsOfOrder` | src/main/java/nextech/shoploc/services/orderLine/OrderLineServiceImpl.java:101-104 | the ids of the stored lines of an order: an id is in it iff it is stored (below the bound) and its line's order is that order; ascending |
| `OrderLineQueries.Responses` | src/main/java/nextech/shoploc/services/orderLine/OrderLineServiceImpl.java:106-108 | one response per id, the i-th being the mapped i-th line |
| `OrderLineQueries.OrderLinesByOrderId` | src/main/java/nextech/shoploc/services/orderLine/OrderLineServiceImpl.java:99-109 | fails with NotFound naming the order id iff the order is absent; otherwise the responses of exactly that order's lines |
| `OrderLineQueries.AllOrderLinesComplete` | src/main/java/nextech/shoploc/services/orderLine/OrderLineServiceImpl.java:111-117 | with every stored id in [0, bound), the full listing has exactly one response per stored line and contains every stored line's response |
| `OrderLineQueries.OrderLinesByOrderIdExact` | src/main/java/nextech/shoploc/services/orderLine/OrderLineServiceImpl.java:99-109 | for an existing order the listing succeeds with one response per stored line of that order and no other |
| `OrderLineService.OrderLineService.constructor` | src/main/java/nextech/shoploc/services/orderLine/OrderLineServiceImpl.java:33-37 | a service wired to the product, order and order-line tables as they stand (every stored line keyed by its id, below the identity generator, referring to stored rows) satisfies the store invariant |
| `OrderLineService.OrderLineService.CreateOrderLine` | src/main/java/nextech/shoploc/services/orderLine/OrderLineServiceImpl.java:64-78 | a missing product gives NotFound for the product, then a named but missing order gives NotFound for the order, and neither saves anything; success adds exactly one line under a fresh id, holding the resolved product, order and quantity; the response echoes the request's product id, order id and quantity, carries the product's name and no line id; the store invariant is kept |
| `OrderLineService.OrderLineService.UpdateOrderLine` | src/main/java/nextech/shoploc/services/orderLine/OrderLineServiceImpl.java:127-136 | an absent id gives NotFound for the line; otherwise the request is mapped onto the stored line (a null order id keeps its order), a failed resolution leaves the table unchanged, and success overwrites only that id and returns its response with its id; the store invariant is kept |
| `OrderLineService.OrderLineService.DeleteOrderLine` | src/main/java/nextech/shoploc/services/orderLine/OrderLineServiceImpl.java:119-125 | fails with NotFound and leaves the table unchanged iff the id is absent; otherwise removes exactly that id; afterwards a lookup of the id fails with NotFound and every other lookup is unchanged |

## Left out

- `getOrderLinesByMerchantId`: the repository's merchant query is derived from its method name, and its meaning is not in the code modelled here.
- `ProductService.getProductById` is not part of this model. Create's first product lookup is modelled as a lookup in the same product table, failing with NotFound for the product id.
- The session manager, verification-code generator, e-mail sender, password verifier, user service and client service are not part of this model. They are parameters, or (for the session) the assumed meaning stated above.
- The controller's console logging in `verify` and `logout` is left out.
- Concurrent requests on one session (last write wins) are left out, as is the database's own transaction discipline.
- `ClientLogin.ClientLoginController.Login`: a thrown mail exception is modelled as the `Failure` result. Its translation into an HTTP 500 by the framework is not modelled.
- `OrderLineModel.ToEntity`: a converter's failure is modelled as the NotFound error it throws. The object mapper's wrapping of that error into its own mapping exception is not modelled.
- `OrderLineModel.ToEntity`: the model resolves the order before the product, in the order the mappings are declared. The mapper's actual property order is not visible.
- `OrderLineModel.ToResponse`: the model sets only fields with the same name or an explicit mapping. The mapper's implicit nested match of the product's name onto `productName` is not modelled, so read, list and update responses carry no product name.
- A request with a null product id is not modelled (`productId` is always present).
- `OrderLineQueries.AllOrderLines`: the repository's listing order is unspecified. The model lists in ascending id order.
- Identity generation is modelled by the `nextId` counter (ids are issued in increasing order).
- Ids are signed, as callers pass them, so a negative id reaches the lookups and fails with NotFound, its message showing the `-`. The listing functions take the identity generator as `bound` and require every stored id to lie in [0, bound); the store invariant provides this.
- Referential integrity against product or order deletions made by other services is not modelled. In this model the product and order tables are constant.
- HTTP routing, request binding and JSON serialisation are left out. A response is its status plus the entries of its response map.
