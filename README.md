# Hobby backend: bearer-token filter and user service, modelled in Dafny

This project models the two pieces of sequential logic in the hobby backend's
Spring service: the JWT authentication filter that runs once per request, and
the in-memory meaning of the user service (seeding, registration, lookups, and
deleting users with the cascading removal of hobbies from clients' lists).

- `wrappers.dfy` (module `Wrappers`): `Option`, standing for a null reference or an empty `Optional`.
- `jwt_filter.dfy` (module `Filter`): class `JwtFilter` holds the request's state. That state is the
  security context's authentication slot (`auth`), the number of calls to `filterChain.doFilter`
  (`forwarded`), and the warning/error lines logged (`log`). `DoFilterInternal` follows the Java
  method step by step, including its early returns. Its contract ties the new state to the
  specification function `FilterOutcome`, and lemmas about `FilterOutcome` state each branch's
  property. Three collaborators are passed in as functions: the JWT codec's
  `getUsernameFromToken`, the user-details service's `loadUserByUsername`, and `validateToken`.
  Each returns a value or a thrown exception (`Call<T>`).
- `list_removal.dfy` (module `ListRemoval`): `RemoveFirst` is `java.util.List.remove(Object)`: the first
  equal element is removed. `RemoveEach` is a series of such removals, one per element, in order.
- `user_service.dfy` (module `UserService`): class `UserServiceImpl`. Its fields are the user table
  (`users: map<UserId, UserEntity>`, shared by the user, client and business-owner repositories),
  the role repository (`roles`), the next id that `save` hands out, and the password encoder
  (an uninterpreted `encode` function fixed at construction).

Where the code is stricter or narrower than one might expect, the model follows the code:
- The filter attempts authentication only when the decoded username is non-null, as well as when
  the slot is empty.
- `"Bearer "` is matched case-sensitively and with exactly one space (`PrefixIsStrict`). This is
  stricter than the case-insensitive scheme matching of section 2.1 of RFC 6750.
- `seedUsersAndUserRoles` saves the three roles unconditionally whenever the user table is empty.
  Its comment says "if they don't exist", but the code does not check.
- `deleteUser` never returns false: `findUserById` raises NotFound first, so its null check is dead.

## Model

| member | source | states |
|---|---|---|
| `Filter.ExtractToken` | spring-backend/src/main/java/backend/hobbiebackend/filter/JwtFilter.java:40-45 | a token exists iff the header is present and starts with "Bearer ", and then "Bearer " + token is the header |
| `Filter.TokenFragment` | spring-backend/src/main/java/backend/hobbiebackend/filter/JwtFilter.java:52 | the logged fragment is a prefix of the token of length min(20, \|token\|) followed by "..."; a token of at most 20 characters is logged whole |
| `Filter.JwtFilter.DoFilterInternal` | spring-backend/src/main/java/backend/hobbiebackend/filter/JwtFilter.java:36-95 | on every path the request is forwarded exactly once and nothing is raised; the slot and the log change as `FilterOutcome` decides, and the rest of the chain sees the slot already in that final state |
| `Filter.JwtFilter.Forward` | spring-backend/src/main/java/backend/hobbiebackend/filter/JwtFilter.java:94 | handing the request on counts one forwarding, records the slot as the rest of the chain sees it, and changes neither slot nor log |
| `Filter.ExtractTokenOfBearer` | spring-backend/src/main/java/backend/hobbiebackend/filter/JwtFilter.java:44-45 | the header "Bearer " + t always yields exactly t (prefix stripping is the inverse of prefixing) |
| `Filter.PrefixIsStrict` | spring-backend/src/main/java/backend/hobbiebackend/filter/JwtFilter.java:44 | "bearer …" and a bare "Bearer" are rejected; a second space stays in the token |
| `Filter.NoBearerHeaderIgnoresCollaborators` | spring-backend/src/main/java/backend/hobbiebackend/filter/JwtFilter.java:44-71 | without a bearer header no collaborator influences the outcome: the slot is unchanged and nothing is logged |
| `Filter.DecodeFailureKeepsSlot` | spring-backend/src/main/java/backend/hobbiebackend/filter/JwtFilter.java:48-68 | any decode exception leaves the slot unchanged, logs one line for its catch clause, and consults neither user lookup nor validation |
| `Filter.SignatureFailureLogsFragment` | spring-backend/src/main/java/backend/hobbiebackend/filter/JwtFilter.java:51-55 | a signature failure logs the first min(20, \|token\|) characters of the token followed by "..." |
| `Filter.PresetSlotIsKept` | spring-backend/src/main/java/backend/hobbiebackend/filter/JwtFilter.java:71 | an authentication already in the slot is never overwritten |
| `Filter.LookupOrValidationFailureKeepsSlotEmpty` | spring-backend/src/main/java/backend/hobbiebackend/filter/JwtFilter.java:73-91 | a failed user lookup, or a token that does not validate (false or an exception), leaves the slot empty |
| `Filter.SlotChangesExactlyWhenAuthenticated` | spring-backend/src/main/java/backend/hobbiebackend/filter/JwtFilter.java:71-84 | the slot changes iff it was empty and a bearer token decodes to a username whose user loads and validates the token |
| `Filter.SlotIsSetToLoadedUser` | spring-backend/src/main/java/backend/hobbiebackend/filter/JwtFilter.java:73-84 | when all checks pass, the slot holds the loaded user with that user's authorities and nothing is logged |
| `Filter.AliceIsAuthenticated` | spring-backend/src/main/java/backend/hobbiebackend/filter/JwtFilter.java:40-84 | "Bearer aaa.bbb.ccc" naming alice, present with USER and a valid token, authenticates alice with ["USER"] |
| `ListRemoval.RemoveFirst` | spring-backend/src/main/java/backend/hobbiebackend/service/impl/UserServiceImpl.java:226-227 | `List.remove(Object)` shortens the list by one exactly when the element is present, and otherwise not at all |
| `ListRemoval.RemoveFirstAbsent` | spring-backend/src/main/java/backend/hobbiebackend/service/impl/UserServiceImpl.java:226-227 | removing an absent element leaves the list unchanged |
| `ListRemoval.RemoveFirstSplicesFirstOccurrence` | spring-backend/src/main/java/backend/hobbiebackend/service/impl/UserServiceImpl.java:226-227 | removal splices out the first occurrence only; the elements before and after keep their order |
| `ListRemoval.RemoveFirstMultiset` | spring-backend/src/main/java/backend/hobbiebackend/service/impl/UserServiceImpl.java:226-227 | removal takes exactly one copy of the element out of the list's multiset, if there is one |
| `ListRemoval.RemoveEach` | spring-backend/src/main/java/backend/hobbiebackend/service/impl/UserServiceImpl.java:198-201 | removing each offered hobby once shortens a list by at most the number of hobbies, and never lengthens it |
| `ListRemoval.RemoveEachMultiset` | spring-backend/src/main/java/backend/hobbiebackend/service/impl/UserServiceImpl.java:198-201 | the series of removals leaves the multiset difference: at most one copy removed per offered hobby |
| `ListRemoval.RemoveEachDisjoint` | spring-backend/src/main/java/backend/hobbiebackend/service/impl/UserServiceImpl.java:198-201 | a list holding none of the offered hobbies is unchanged |
| `UserService.UserServiceImpl.SaveNew` | spring-backend/src/main/java/backend/hobbiebackend/service/impl/UserServiceImpl.java:113 | saving a new entity stores it under a fresh id and changes no other row |
| `UserService.UserServiceImpl.SeedUsersAndUserRoles` | spring-backend/src/main/java/backend/hobbiebackend/service/impl/UserServiceImpl.java:49-105 | on an empty table: saves USER, BUSINESS_USER, ADMIN and returns admin, user, business in that order, with roles [ADMIN], [USER], [BUSINESS_USER], their encoded passwords, and exactly these three stored; otherwise returns [] and changes nothing |
| `UserService.UserServiceImpl.Register` | spring-backend/src/main/java/backend/hobbiebackend/service/impl/UserServiceImpl.java:107-114 | stores a new client under a fresh id with roles exactly [USER] and password encode(raw), other rows unchanged |
| `UserService.UserServiceImpl.RegisterBusiness` | spring-backend/src/main/java/backend/hobbiebackend/service/impl/UserServiceImpl.java:116-123 | stores a new business owner under a fresh id with roles exactly [BUSINESS_USER] and password encode(raw), other rows unchanged |
| `UserService.UserServiceImpl.FindUserById` | spring-backend/src/main/java/backend/hobbiebackend/service/impl/UserServiceImpl.java:135-143 | a stored user with that id, or NotFound("User not found") exactly when the id is absent |
| `UserService.UserServiceImpl.FindOne` | spring-backend/src/main/java/backend/hobbiebackend/service/impl/UserServiceImpl.java:177-178 | a derived finder returns a stored matching user iff one exists, else an empty Optional |
| `UserService.UserServiceImpl.FindUserByEmail` | spring-backend/src/main/java/backend/hobbiebackend/service/impl/UserServiceImpl.java:145-153 | a stored user with that email, or null (None) rather than an exception when there is none |
| `UserService.UserServiceImpl.UserExists` | spring-backend/src/main/java/backend/hobbiebackend/service/impl/UserServiceImpl.java:175-180 | true iff some user has the username or some user has the email |
| `UserService.UserServiceImpl.BusinessExists` | spring-backend/src/main/java/backend/hobbiebackend/service/impl/UserServiceImpl.java:232-236 | true iff some business owner has the business name |
| `UserService.UserServiceImpl.RemoveHobbiesFromLists` | spring-backend/src/main/java/backend/hobbiebackend/service/impl/UserServiceImpl.java:198-201 | the loop over the offered hobbies leaves each list as the series of first-occurrence removals |
| `UserService.UserServiceImpl.RemoveFromClientRecords` | spring-backend/src/main/java/backend/hobbiebackend/service/impl/UserServiceImpl.java:196-203 | the loop over all clients leaves every client purged of the hobbies and every other row as it was |
| `UserService.UserServiceImpl.FindAndRemoveHobbyFromClientsRecords` | spring-backend/src/main/java/backend/hobbiebackend/service/impl/UserServiceImpl.java:221-229 | every client's saved and matched lists lose the hobby's first occurrence; nothing else changes |
| `UserService.UserServiceImpl.DeleteUser` | spring-backend/src/main/java/backend/hobbiebackend/service/impl/UserServiceImpl.java:187-207 | absent id: NotFound, nothing changes; present: returns true and removes that row, after purging a business owner's offers from every client (any other user's deletion touches no other row) |
| `UserService.PurgeClientsChangesOnlyHobbyLists` | spring-backend/src/main/java/backend/hobbiebackend/service/impl/UserServiceImpl.java:222-229 | purging keeps every row and every field other than a client's two hobby lists |
| `UserService.PurgedListsLoseOneOccurrencePerHobby` | spring-backend/src/main/java/backend/hobbiebackend/service/impl/UserServiceImpl.java:193-204 | a purged client's lists are their old multisets minus the offered hobbies, at most one copy per hobby |
| `UserService.RemovingOneHobbyRemovesFirstOccurrence` | spring-backend/src/main/java/backend/hobbiebackend/service/impl/UserServiceImpl.java:225-228 | with one hobby, each client list is `List.remove` of it and shrinks by exactly one iff the hobby was in it |
| `UserService.ClientWithoutOfferedHobbiesIsUntouched` | spring-backend/src/main/java/backend/hobbiebackend/service/impl/UserServiceImpl.java:197-201 | a client holding none of the offered hobbies is left exactly as it was |

## Left out

- JWT cryptography and claim parsing (`JWTUtility`): `getUsernameFromToken` and `validateToken` are arbitrary functions that may throw; their code is not part of this model.
- `HobbieUserDetailsService.loadUserByUsername` is an arbitrary function that may throw. Its code is not part of this model.
- `WebAuthenticationDetailsSource` request details on the authentication token, and the null credentials, are not modelled. The slot holds the principal and its authorities.
- The filter's debug log lines are not modelled. Only its warning and error lines are, with the argument each one carries.
- `SecurityContextHolder` is a thread-local. Here it is one field of the per-request object, since nothing runs concurrently.
- An exception thrown by `buildDetails` or `setAuthentication` inside the filter's second try block is not modelled.
- `PasswordEncoder.encode` is an uninterpreted function, since hashing is a library call.
- `ModelMapper` is modelled as copying the same-named fields of the sign-up form. The password is copied and then overwritten with its encoding, as the code does.
- `UserRoleService` is not part of this model. A role entity is identified by its enum value; `saveRole` appends to the role store; `getUserRoleByEnumName` is taken to return that role.
- Persistence: `@Transactional` commit, dirty checking and generated ids are modelled as map updates in place and a counter of ids.
- Hobby equality (`Hobby.equals`) is modelled as equality of the hobby's id.
- A new client's or business owner's hobby lists are taken to start empty. The entity classes are not part of this model.
- `UserService.UserServiceImpl.FindOne`: Spring Data's derived finders raise an error when several rows match. The model returns one of the matching users instead.
- `UserService.UserServiceImpl.FindUserByEmail`: same as `FindOne` when several users share an email.
- The order in which `findAll` lists clients is not modelled. Each client's update is independent of the others, so the resulting table does not depend on it.
- The pass-through methods are not modelled. They are `saveUpdatedUser`, `saveUpdatedUserClient`, `saveUserWithUpdatedPassword`, `findBusinessByUsername`, `findBusinessOwnerById`, `findUserByUsername`, `findAppClientById` and `findAppClientByUsername`. Each is a single repository lookup or save.
