# api-petshop: a verified model of the booking core

api-petshop is an HTTP API for pet owners (*donos*), pet shops (*petshops*),
their pets, the services a petshop offers (*serviços*), appointments
(*agendamentos*) and the records of procedures performed (*procedimentos*).
This project models its decision logic in Dafny and proves what that logic
promises.

The model covers:

- the appointment lifecycle: booking, rescheduling, status changes and
  listings;
- procedure records;
- the uniqueness and partial-update rules of the owner, petshop, service,
  pet and registration services;
- the request guards (middlewares) that allow a request, or answer it with
  400, 403, 404 or 500;
- token extraction, the claim encoding and decoding of the login token, and
  the login check;
- the page and limit normalisation of the paginated listings.

The modules follow the program's layers:

- `common.dfy`, `entities.dfy` and `dtos.dfy` hold the data model: KSUID text
  ids, the appointment status, the records, and the request and response
  shapes.
- `tables.dfy` holds the generic table operations the repositories share:
  keyed lookup, filtering, ordering by date, and the paging window.
- `text.dfy` holds ASCII `TrimSpace` and `ToLower`.
- `*_repository.dfy` model the stores. Each is a class whose `rows`
  sequence stands for the table. Its `failing` set names the storage
  operations that fail, so every error branch of a service can be reached.
- `*_service.dfy` model the application services. Each is a class over the
  repositories it uses. State-changing operations are methods proved against
  a specification function (`PlanCreate`, `PlanUpdate`, ...) or against the
  new table contents. The loops over request items and over listed records
  are methods with invariants.
- `claims.dfy` and `*_middleware.dfy` model the guards as functions from the
  token's claims, the path parameter and one looked-up record to a
  `Decision` (`Next` or `Abort(status)`).
- `auth_middleware.dfy` models token extraction, the role guards, the
  login check and the claims of the login token.

External facts are parameters:

- "now" is passed in, and the clock is not modelled;
- the ids the generator would produce are passed in: `newId`, plus
  `itemIds` for item rows;
- a date string is passed already parsed, as `Option<Time>`;
- the password hash is a stand-in digest, and its check accepts exactly the
  hashed plaintext.

## Model

| member | source | states |
|---|---|---|
| Common.ParseId | application/services/agendamento_service.go:43-56 | An id is accepted exactly when it is 27 base-62 characters (KSUID text), and it is kept unchanged |
| Entities.ParseStatus | domain/entities/agendamento.go:13-22 | A status text is recognised only when it names one of the four statuses, and that status's own text is the input |
| Entities.StatusTextRoundTrip | domain/entities/agendamento.go:13-22 | Each of the four named statuses reads back from its text, so the four texts are distinct |
| Entities.AgendamentoBeforeCreate | domain/entities/agendamento.go:53-59 | The insert hook gives the appointment the new id and fills an empty status with `pendente`. A non-empty status is kept, and no other field changes |
| Entities.LinkItems | domain/entities/agendamento.go:24-64 | Each item, in order, gets its own fresh id and the appointment's id as its parent; nothing else about it changes |
| Entities.LinkItemsKeepsPrices | domain/entities/agendamento.go:62-64 | Linking items to their appointment leaves their prices as they were |
| Entities.ProcedimentoBeforeCreate | domain/entities/procedimentos.go:38-41 | The insert hook gives the procedure the new id and changes nothing else |
| Entities.LinkItemsProcedimento | domain/entities/procedimentos.go:44-47 | Each procedure item, in order, gets its own fresh id and the procedure's id as its parent |
| Entities.PricesPrevistos | application/services/agendamento_service.go:144 | The prices summed by the item loop are the items' requested prices, position by position |
| Entities.PricesFinais | application/services/procedimentos_service.go:80-118 | The prices summed by the item loop are the items' final prices, position by position |
| Common.WithinEpsilonIsDistance | application/services/procedimentos_service.go:121-131 | The procedure total is accepted exactly when it lies within 0.01 of the item sum, both bounds inclusive |
| Tables.SortDesc | infrastructure/repositories/agendamento_repository.go:104-131 | Ordering by date descending yields a sorted permutation of the selected rows, with the same members |
| Tables.SortAsc | infrastructure/repositories/agendamento_repository.go:134-146 | Ordering by date ascending yields a sorted permutation of the selected rows, with the same members |
| Tables.NormalizePage | infrastructure/repositories/petshop_repository.go:72-74 | A page number below 1 becomes 1; any other page is kept |
| Tables.NormalizeLimit | infrastructure/repositories/petshop_repository.go:75-77 | A limit outside 1..100 becomes 10, any other is kept, so the effective limit is always within 1..100 |
| Tables.PageOffset | infrastructure/repositories/petshop_repository.go:79 | The offset skips exactly the rows of the earlier pages: offset plus limit equals page times limit |
| Tables.Window | infrastructure/repositories/petshop_repository.go:81 | At most `limit` rows are returned, each the table row at the offset plus its position. Past the end of the table the page is empty |
| Tables.PagesTileTable | infrastructure/repositories/petshop_repository.go:72-81 | Reading pages 1 to n in turn gives the table's first n·limit rows in order, with no row lost or repeated |
| Text.TrimSpace | application/services/petshop_service.go:139 | The result has no space at either end and is a contiguous slice of the input. Everything outside that slice is space |
| Text.TrimSpaceIdempotent | application/services/petshop_service.go:139 | Trimming a trimmed text changes nothing |
| Text.ToLower | application/services/petshop_service.go:139 | Lower-casing maps each character independently and keeps the length |
| Text.LowerChar | application/services/petshop_service.go:139 | An ASCII capital becomes its small letter; every other character is kept; no capital remains |
| Text.ToLowerIdempotent | application/services/petshop_service.go:139 | Lower-casing a lower-cased text changes nothing |
| Text.TrimSpaceToLower | application/services/petshop_service.go:139 | Trimming and lower-casing commute |
| Claims.LookupStatus | presentation/middlewares/agendamento_middleware.go:52-61 | A failed lookup answers 404 exactly when the error is "not found", and 500 otherwise |
| Claims.StrClaim | presentation/middlewares/ownership_middleware.go:36-43 | A claim is read as text only when it is present and is a string |
| DonoRepo.DonoRepository.GetByID | infrastructure/repositories/dono_repository.go:32-42 | A found owner is the stored row with that id. The lookup gives "not found" exactly when no row has the id, and a storage error exactly when the lookup fails |
| DonoRepo.DonoRepository.GetByEmail | infrastructure/repositories/dono_repository.go:90-101 | An absent email gives "no owner", not an error; an error comes only from a failing lookup; a found owner has that email |
| DonoRepo.DonoRepository.Create | infrastructure/repositories/dono_repository.go:23-29 | The row is appended with the new id exactly when the insert works and neither its id nor its email is taken; otherwise the table is unchanged |
| DonoRepo.DonoRepository.Update | infrastructure/repositories/dono_repository.go:45-54 | An unknown id gives "not found". On success exactly the owner's row is replaced, and email uniqueness is kept. On error the table is unchanged |
| DonoRepo.DonoRepository.Delete | infrastructure/repositories/dono_repository.go:57-66 | A failing delete is a storage error and an unknown id is "not found", both leaving the table unchanged. On success exactly that owner's row is removed and every other row stays in order |
| DonoRepo.DonoRepository.List | infrastructure/repositories/dono_repository.go:69-87 | A page is the normalised window of the table, at most 100 rows; a failing read is a storage error |
| PetshopRepo.PetshopRepository.GetByID | infrastructure/repositories/petshop_repository.go:32-42 | A found petshop is the stored row with that id. "Not found" exactly when no row has the id; a storage error exactly when the lookup fails |
| PetshopRepo.PetshopRepository.GetByEmail | infrastructure/repositories/petshop_repository.go:90-101 | An absent email gives "no petshop", distinct from an error; a found petshop has that email |
| PetshopRepo.PetshopRepository.Create | infrastructure/repositories/petshop_repository.go:23-29 | The row is appended with the new id exactly when the insert works and neither id nor email is taken; otherwise the table is unchanged |
| PetshopRepo.PetshopRepository.Update | infrastructure/repositories/petshop_repository.go:45-54 | An unknown id gives "not found". On success exactly that row is replaced, and email uniqueness is kept. On error the table is unchanged |
| PetshopRepo.PetshopRepository.Delete | infrastructure/repositories/petshop_repository.go:57-66 | A failing delete is a storage error and an unknown id is "not found", both leaving the table unchanged. On success exactly that petshop's row is removed and every other row stays in order |
| PetshopRepo.PetshopRepository.List | infrastructure/repositories/petshop_repository.go:69-87 | A page is the normalised window of the table, at most 100 rows; a failing read is a storage error |
| PetshopRepo.PetshopRepository.FindByCity | application/interfaces/repositories/petshop_repository.go:16 | A page of the petshops whose stored city, trimmed and lower-cased, equals the given text, paged like `List`; every row returned is stored and matches |
| PetRepo.PetRepository.GetByID | infrastructure/repositories/pet_repository.go:32-42 | A found pet is the stored row with that id; "not found" exactly when absent, storage error exactly when the lookup fails |
| PetRepo.PetRepository.Create | infrastructure/repositories/pet_repository.go:23-29 | The row is appended with the new id exactly when the insert works and the id is free; otherwise the table is unchanged |
| PetRepo.PetRepository.GetByDonoID | infrastructure/repositories/pet_repository.go:69-76 | The listing holds exactly the owner's pets |
| ServicoRepo.ServicoRepository.GetByID | infrastructure/repositories/servico_repository.go:30-40 | A found service is the stored row with that id; "not found" exactly when absent, an error exactly when the lookup fails |
| ServicoRepo.ServicoRepository.GetByName | infrastructure/repositories/servico_repository.go:77-87 | "No service" exactly when the petshop has no service of that name; a found one belongs to that petshop and has that name |
| ServicoRepo.ServicoRepository.GetByPetshopID | infrastructure/repositories/servico_repository.go:67-74 | The listing holds exactly the petshop's services |
| ServicoRepo.ServicoRepository.Create | infrastructure/repositories/servico_repository.go:21-27 | The row is appended with the new id exactly when the insert works and the id is free; otherwise the table is unchanged |
| ServicoRepo.ServicoRepository.Update | infrastructure/repositories/servico_repository.go:43-52 | A failing save gives "invalid data" and an unknown id "not found", both leaving the table unchanged. On success exactly the service's row is replaced |
| ServicoRepo.ServicoRepository.Delete | infrastructure/repositories/servico_repository.go:55-64 | A failing delete gives "invalid data" and an unknown id "not found", both leaving the table unchanged. On success exactly the service's row is removed and every other service remains in order |
| ServicoRepo.NamesDistinctSnoc | application/services/servicos_service.go:40-46 | Adding a service whose name is new for its petshop keeps names unique per petshop |
| ServicoRepo.NamesDistinctUpdate | application/services/servicos_service.go:84-92 | Renaming a service to a name no other service of its petshop has keeps names unique per petshop |
| ServicoRepo.NamesDistinctRemove | application/services/servicos_service.go:108-110 | Removing a service keeps names unique per petshop |
| ProcedimentoRepo.Inserted | infrastructure/repositories/procedimentos_repository.go:21-27 | The stored procedure has the new id and its items are linked to it, with their count and prices unchanged |
| ProcedimentoRepo.ProcedimentoRepository.Create | infrastructure/repositories/procedimentos_repository.go:21-27 | The linked record is appended exactly when the insert works and the id is free; otherwise the table is unchanged |
| ProcedimentoRepo.ProcedimentoRepository.GetByPetID | infrastructure/repositories/procedimentos_repository.go:43-50 | The listing is a permutation of the pet's procedures, latest first |
| AgendamentoRepo.Inserted | infrastructure/repositories/agendamento_repository.go:24-30 | The stored appointment has the new id, its status defaulted to `pendente` when empty, and its items linked, each with its own id. Prices are unchanged and no other field changes |
| AgendamentoRepo.Saved | infrastructure/repositories/agendamento_repository.go:64-74 | Saving replaces the item collection with freshly linked items at the same prices; the other fields are as given |
| AgendamentoRepo.AgendamentoRepository.GetByID | infrastructure/repositories/agendamento_repository.go:33-43 | A found appointment is the stored row with that id; "not found" exactly when absent, storage error exactly when the lookup fails |
| AgendamentoRepo.AgendamentoRepository.Create | infrastructure/repositories/agendamento_repository.go:24-30 | The inserted row is appended exactly when the insert works and the id is free; otherwise the table is unchanged |
| AgendamentoRepo.AgendamentoRepository.Update | infrastructure/repositories/agendamento_repository.go:46-77 | An unknown id gives "not found" and changes nothing. Otherwise the row and its items are replaced together, or nothing changes when any step fails |
| AgendamentoRepo.AgendamentoRepository.UpdateStatus | infrastructure/repositories/agendamento_repository.go:80-89 | A failing write is a storage error and an unknown id is "not found", both leaving the table unchanged. On success only the status of the matching row changes |
| AgendamentoRepo.AgendamentoRepository.GetByDonoID | infrastructure/repositories/agendamento_repository.go:104-111 | A permutation of exactly the owner's appointments, latest date first |
| AgendamentoRepo.AgendamentoRepository.GetByPetshopID | infrastructure/repositories/agendamento_repository.go:114-121 | A permutation of exactly the petshop's appointments, latest date first |
| AgendamentoRepo.AgendamentoRepository.GetByPetID | infrastructure/repositories/agendamento_repository.go:124-131 | A permutation of exactly the pet's appointments, latest date first |
| AgendamentoRepo.AgendamentoRepository.GetAgendamentosFuturos | infrastructure/repositories/agendamento_repository.go:134-146 | Exactly the petshop's appointments after `now` that are not cancelled, earliest date first |
| AgendamentoService.ScheduleDate | application/services/agendamento_service.go:89-98 | A booking date is accepted exactly when it parses and is not before now; a malformed date and a past date fail with their own errors |
| AgendamentoService.TransitionError | application/services/agendamento_service.go:287-297 | A status change is refused exactly when the current status is cancelled or concluded and the new one differs; the error names which |
| AgendamentoService.TerminalIsAbsorbing | application/services/agendamento_service.go:287-297 | Once cancelled or concluded, no sequence of status changes moves the appointment |
| AgendamentoService.ToView | application/services/agendamento_service.go:437-465 | The response carries the appointment's id, owner, petshop and date and the looked-up pet name |
| AgendamentoService.ViewRoundTrip | application/services/agendamento_service.go:437-465 | The response loses nothing of a stored appointment apart from timestamps: the record reads back from it |
| AgendamentoService.LatestFirstSnoc | application/services/agendamento_service.go:207-229 | Appending a response no later than all the earlier ones keeps the listing latest first |
| AgendamentoService.AgendamentoService.ResolveParties | application/services/agendamento_service.go:43-87 | A malformed owner, pet or petshop id fails, in that order, before any lookup. Then a missing owner, a missing pet, a pet of another owner and a missing petshop fail in that order, each lookup failure read as "not found" or as a failed check. The request resolves exactly when none of these happens, and then the three records exist under the given ids and the pet belongs to the owner |
| AgendamentoService.AgendamentoService.CheckItem | application/services/agendamento_service.go:114-142 | An item is accepted exactly when its service id parses and the service exists, belongs to the petshop and is active. The item carries that service's name and the requested price |
| AgendamentoService.AgendamentoService.PlanItems | application/services/agendamento_service.go:113-145 | An accepted plan has one item per request, and a rejected plan fails with an item error |
| AgendamentoService.AgendamentoService.PlanItemsChecked | application/services/agendamento_service.go:113-145 | Each planned item is, at its own position, the item the single check accepts, so items keep request order |
| AgendamentoService.AgendamentoService.PlanItemsStopsAtError | application/services/agendamento_service.go:113-145 | The first failing item decides the outcome: later items cannot change it |
| AgendamentoService.AgendamentoService.PlanItemsOkIff | application/services/agendamento_service.go:113-145 | A request's items are accepted exactly when every item passes the single check |
| AgendamentoService.AgendamentoService.BuildItems | application/services/agendamento_service.go:111-145 | The loop's result is the plan, and its running total is the sum of the accepted prices |
| AgendamentoService.AgendamentoService.PlanCreate | application/services/agendamento_service.go:41-150 | A valid booking is pending, dated not before now and tied to the requested owner, pet and petshop. Its items are the checked plan, and their prices sum exactly to the declared total. The first failing check decides the error |
| AgendamentoService.AgendamentoService.PlanCreateAfterParties | application/services/agendamento_service.go:111-150 | With the parties and date settled, a failing item or a total different from the item sum decides the outcome |
| AgendamentoService.AgendamentoService.Create | application/services/agendamento_service.go:41-159 | A failed check leaves the table unchanged. Otherwise exactly one row is appended: the planned appointment with its id and its linked items. The response names its parties |
| AgendamentoService.AgendamentoService.Present | application/services/agendamento_service.go:168-186 | Pet, owner and petshop are looked up in that order, the first failure naming its error; on success the response is the appointment with those names |
| AgendamentoService.AgendamentoService.GetByID | application/services/agendamento_service.go:162-187 | The repository's error passes unchanged; otherwise the stored appointment is presented |
| AgendamentoService.AgendamentoService.PresentAll | application/services/agendamento_service.go:207-229 | A listing has no more responses than there are appointments |
| AgendamentoService.AgendamentoService.PresentAllSound | application/services/agendamento_service.go:207-229 | Every response in a listing presents some appointment of the list |
| AgendamentoService.AgendamentoService.PresentAllComplete | application/services/agendamento_service.go:207-229 | Every appointment whose parties can be read appears in the listing; only unreadable ones are skipped |
| AgendamentoService.AgendamentoService.PresentAllSorted | application/services/agendamento_service.go:207-229 | Skipping appointments keeps a latest-first list latest first |
| AgendamentoService.AgendamentoService.PresentAllOfDono | application/services/agendamento_service.go:207-229 | The responses for one owner's appointments are all of that owner |
| AgendamentoService.AgendamentoService.PresentAllOfPetshop | application/services/agendamento_service.go:250-272 | The responses for one petshop's appointments are all of that petshop |
| AgendamentoService.AgendamentoService.PresentAllAtLeast | application/services/agendamento_service.go:207-229 | Responses are no earlier than the earliest listed appointment |
| AgendamentoService.AgendamentoService.PresentList | application/services/agendamento_service.go:207-229 | The listing loop's output is the order-preserving listing with the unreadable appointments skipped |
| AgendamentoService.AgendamentoService.GetByDonoID | application/services/agendamento_service.go:190-230 | An unknown owner or a failing listing gives its error. Otherwise the responses are all of that owner, latest first, and skip only unreadable appointments |
| AgendamentoService.AgendamentoService.GetByPetshopID | application/services/agendamento_service.go:233-273 | An unknown petshop or a failing listing gives its error. Otherwise the responses are all of that petshop, latest first |
| AgendamentoService.AgendamentoService.PlanUpdate | application/services/agendamento_service.go:331-412 | A reschedule fails for a missing, cancelled or concluded appointment. A valid one keeps the id, owner, pet, petshop and status. Its date is not past, its items are checked against the stored petshop, and their sum equals the total |
| AgendamentoService.AgendamentoService.ClosedNotEditable | application/services/agendamento_service.go:342-347 | A cancelled or concluded appointment can never be rescheduled |
| AgendamentoService.AgendamentoService.Update | application/services/agendamento_service.go:331-434 | A failed check changes nothing. Otherwise exactly the appointment's row is replaced by the plan with freshly linked items, or nothing changes when the save fails |
| AgendamentoService.AgendamentoService.UpdateStatus | application/services/agendamento_service.go:276-328 | A refused transition or a failed write changes nothing. Otherwise only the status of that appointment's row changes, and the response presents the updated record |
| ProcedimentoService.PerformedDate | application/services/procedimentos_service.go:68-77 | A procedure date is accepted exactly when it parses and is not after now; a date equal to now is accepted |
| ProcedimentoService.ToView | application/services/procedimentos_service.go:164-189 | The response carries the procedure's id, pet, date and the pet's name |
| ProcedimentoService.ViewRoundTrip | application/services/procedimentos_service.go:164-189 | The response loses nothing of a stored procedure apart from timestamps |
| ProcedimentoService.ViewsOf | application/services/procedimentos_service.go:155-158 | One response per procedure, in list order, each carrying the pet's name |
| ProcedimentoService.PresentList | application/services/procedimentos_service.go:155-158 | The response loop builds exactly one response per procedure in order |
| ProcedimentoService.ViewsOfPetLatestFirst | application/services/procedimentos_service.go:138-161 | The responses for a pet's latest-first procedures are of that pet and latest first |
| ProcedimentoService.ProcedimentoService.ResolvePetAndPetshop | application/services/procedimentos_service.go:40-66 | A malformed pet or petshop id fails before any lookup. Then the pet lookup and the petshop lookup run in that order, a missing record giving its not-found error and a storage failure its check error. The result is Ok exactly when both ids parse and both records are found, and then both records exist under the given ids |
| ProcedimentoService.ProcedimentoService.CheckItem | application/services/procedimentos_service.go:92-118 | An item is accepted exactly when its service exists and belongs to the petshop, active or not, and carries the service's name and the final price |
| ProcedimentoService.ProcedimentoService.PlanItems | application/services/procedimentos_service.go:92-118 | An accepted list has one item per request, and a rejected list fails with an item error |
| ProcedimentoService.ProcedimentoService.PlanItemsChecked | application/services/procedimentos_service.go:92-118 | Each planned item is the item the single check accepts at its position, so input order is kept |
| ProcedimentoService.ProcedimentoService.PlanItemsStopsAtError | application/services/procedimentos_service.go:92-118 | The first failing item decides the outcome |
| ProcedimentoService.ProcedimentoService.PlanItemsOkIff | application/services/procedimentos_service.go:92-118 | A record's items are accepted exactly when every item passes the single check |
| ProcedimentoService.ProcedimentoService.BuildItems | application/services/procedimentos_service.go:92-119 | The loop's result is the plan, and its running total is the sum of the final prices |
| ProcedimentoService.ProcedimentoService.PlanCreate | application/services/procedimentos_service.go:38-131 | A pet or petshop error passes through first; once both are found, a missing or future date passes its own error through. A valid record is of the given pet and petshop, snapshots their names, and carries the accepted performed date, which is no later than now. Its items are the checked plan and its total is within 0.01 of their sum |
| ProcedimentoService.ProcedimentoService.PlanCreateAfterRefs | application/services/procedimentos_service.go:92-131 | With pet, petshop and date settled, a failing item or a total further than 0.01 from the sum decides the outcome |
| ProcedimentoService.ProcedimentoService.Create | application/services/procedimentos_service.go:38-135 | A failed check leaves the table unchanged; otherwise exactly one linked record is appended and presented with the pet's name |
| ProcedimentoService.ProcedimentoService.GetByPetID | application/services/procedimentos_service.go:138-161 | An unknown pet or a failing listing gives its error. Otherwise there is one response per stored procedure of that pet, latest first, each with the pet's name |
| ServicoService.ToView | application/services/servicos_service.go:139-150 | The response carries the service's id, petshop and active flag |
| ServicoService.ViewRoundTrip | application/services/servicos_service.go:139-150 | The response loses nothing of a stored service apart from timestamps |
| ServicoService.NewServico | application/services/servicos_service.go:49-55 | A new service is active, belongs to the given petshop and carries the requested name, description and base price |
| ServicoService.Edited | application/services/servicos_service.go:95-101 | An edit sets name, description and base price and leaves id, petshop and active flag as they were |
| ServicoService.ViewsOf | application/services/servicos_service.go:129-133 | One response per service, in list order |
| ServicoService.ViewsOfMembers | application/services/servicos_service.go:129-133 | The responses are exactly the listed services: each response reads back to one of them, and each has its response |
| ServicoService.PresentList | application/services/servicos_service.go:129-133 | The response loop builds exactly one response per service in order |
| ServicoService.ServicoService.Create | application/services/servicos_service.go:29-64 | An unknown petshop, a failing name check, a name the petshop already uses, or a failed insert leaves the table unchanged. Otherwise exactly the new active service is appended |
| ServicoService.ServicoService.GetByID | application/services/servicos_service.go:67-73 | The repository's error passes unchanged; a found service is a stored one with that id |
| ServicoService.ServicoService.Update | application/services/servicos_service.go:76-105 | The name is checked only when it changes, and a match on the service itself is no clash. On success only that service's row is edited; on any error the table is unchanged |
| ServicoService.ServicoService.Delete | application/services/servicos_service.go:108-110 | The repository's outcome passes through unchanged: a failing delete gives "invalid data" and an unknown id "not found", both leaving the table unchanged. On success exactly that service's row is removed |
| ServicoService.ServicoService.GetByPetshopID | application/services/servicos_service.go:113-136 | An unknown petshop gives "not found". Otherwise the responses are exactly the petshop's services, one each |
| PetshopService.NormalizeCity | application/services/petshop_service.go:139 | The normalised city has no surrounding space and no capital letter |
| PetshopService.NormalizeCityIdempotent | application/services/petshop_service.go:139 | Normalising a normalised city changes nothing |
| PetshopService.NormalizeCityIgnoresCaseAndPadding | application/services/petshop_service.go:139 | Cities that differ only in letter case or surrounding space normalise alike |
| PetshopService.Detail | application/services/petshop_service.go:188-207 | The detail response carries the petshop's id, email, address, rating and active flag |
| PetshopService.DetailHidesPassword | application/services/petshop_service.go:188-207 | The detail response never depends on the password hash |
| PetshopService.DetailDeterminesRecord | application/services/petshop_service.go:188-207 | Two petshops with the same detail response differ at most in their password hash |
| PetshopService.ListItem | application/services/petshop_service.go:150-157 | A listing entry carries the petshop's id, name, city, state, rating and description |
| PetshopService.ItemsOf | application/services/petshop_service.go:148-158 | One listing entry per petshop, in order |
| PetshopService.PresentList | application/services/petshop_service.go:148-158 | The listing loop builds exactly one entry per petshop in order |
| PetshopService.NewPetshop | application/services/petshop_service.go:38-52 | A new petshop is active with rating 0 and carries the requested fields; its stored hash accepts the given password |
| PetshopService.WithContact | application/services/petshop_service.go:98-104 | A contact update sets name, email, phone and description. The id, address, rating, active flag and password are unchanged |
| PetshopService.WithAddress | application/services/petshop_service.go:120-129 | An address update sets the address and nothing else |
| PetshopService.EditsCommute | application/services/petshop_service.go:98-104 | Contact and address updates touch disjoint fields, so their order does not matter |
| PetshopService.PetshopService.Create | application/services/petshop_service.go:28-67 | A failing email check, a taken email, or a failed insert leaves the table unchanged. Otherwise exactly the new active petshop is appended |
| PetshopService.PetshopService.GetByID | application/services/petshop_service.go:70-76 | The repository's error passes unchanged; a found petshop is presented from a stored row with that id |
| PetshopService.PetshopService.Update | application/services/petshop_service.go:79-109 | The email is checked only when it changes, and a clash gives "already exists". On success only that row's contact fields change; on any error the table is unchanged |
| PetshopService.PetshopService.UpdateEndereco | application/services/petshop_service.go:112-134 | On success only that row's address changes; otherwise the table is unchanged |
| PetshopService.PetshopService.FindByCity | application/services/petshop_service.go:137-161 | The city is trimmed and lower-cased before the query. The entries are the normalised page of the petshops whose city matches it ignoring letter case and surrounding white space |
| PetshopService.PetshopService.List | application/services/petshop_service.go:164-185 | The entries are the normalised page of the table, at most the effective limit |
| DonoService.Detail | application/services/dono_service.go:131-147 | The detail response carries the owner's id, name, email, phone and address |
| DonoService.DetailHidesPassword | application/services/dono_service.go:131-147 | The detail response never depends on the password hash |
| DonoService.DetailDeterminesRecord | application/services/dono_service.go:131-147 | Two owners with the same detail response differ at most in their password hash |
| DonoService.NewDono | application/services/dono_service.go:37-53 | A new owner carries the requested fields, and its stored hash accepts the given password |
| DonoService.WithContact | application/services/dono_service.go:93-95 | A contact update sets name, email and phone; id, address and password are unchanged |
| DonoService.WithAddress | application/services/dono_service.go:114-120 | An address update sets the address and nothing else |
| DonoService.EditsCommute | application/services/dono_service.go:93-95 | Contact and address updates touch disjoint fields, so their order does not matter |
| DonoService.DonoService.CreateAsWritten | application/services/dono_service.go:26-34 | As written, registration through this service always fails with "could not check the existing owner" |
| DonoService.DonoService.Create | application/services/dono_service.go:26-62 | Corrected registration: a failing check, a taken email or a failed insert leaves the table unchanged; otherwise exactly the new owner is appended |
| DonoService.DonoService.GetByID | application/services/dono_service.go:65-71 | The repository's error passes unchanged; a found owner is presented from a stored row with that id |
| DonoService.DonoService.Update | application/services/dono_service.go:74-103 | The email is checked only when it changes. A check failure and a clash give their own errors. On success only the contact fields of that row change; on error the table is unchanged |
| DonoService.DonoService.UpdateLocalizacao | application/services/dono_service.go:106-128 | On success only that row's address changes; a failed save gives its own error and leaves the table unchanged |
| PetService.ToView | application/services/pet_service.go:103-114 | The response carries the pet's id and owner |
| PetService.ViewRoundTrip | application/services/pet_service.go:103-114 | The response loses nothing of a stored pet apart from timestamps |
| PetService.NewPet | application/services/pet_service.go:50-56 | A new pet belongs to the given owner and copies the requested fields |
| PetService.ViewsOf | application/services/pet_service.go:94-97 | One response per pet, in list order |
| PetService.ViewsOfMembers | application/services/pet_service.go:94-97 | The responses are exactly the listed pets |
| PetService.PresentList | application/services/pet_service.go:94-97 | The response loop builds exactly one response per pet in order |
| PetService.OwnerError | application/services/pet_service.go:37-43 | A failed owner lookup reads "owner not found" exactly when the repository said "not found" |
| PetService.PetService.Create | application/services/pet_service.go:29-65 | A malformed owner id, an unknown owner or a failed insert leaves the table unchanged. Otherwise exactly the new pet of that existing owner is appended |
| PetService.PetService.GetByID | application/services/pet_service.go:68-74 | Every failure reads "not found"; success exactly when the pet is stored and the lookup works |
| PetService.PetService.GetByDonoID | application/services/pet_service.go:77-100 | An unknown owner or a failing listing gives its error. Otherwise the responses are exactly the owner's pets |
| AuthService.DonoIdentityOf | application/services/auth_service.go:42-52 | A logged-in owner is of kind `dono` and carries the owner's id, email, name and phone |
| AuthService.PetshopIdentityOf | application/services/auth_service.go:72-83 | A logged-in petshop is of kind `petshop` and carries id, email, name, phone, description and rating |
| AuthService.RegisteredPetshop | application/services/auth_service.go:141-153 | A petshop registered through sign-up is not active and has rating 0, unlike one created by the petshop service |
| AuthService.AuthService.AuthenticateDono | application/services/auth_service.go:27-53 | A failing lookup is its own error; an unknown email reads "unauthorized"; success means a stored owner with that email whose hash accepts the password |
| AuthService.AuthService.AuthenticatePetshop | application/services/auth_service.go:56-84 | The same rules for petshops |
| AuthService.AuthService.OwnerLogin | application/services/auth_service.go:27-53 | A stored owner logs in exactly with a password its hash accepts |
| AuthService.AuthService.PetshopLogin | application/services/auth_service.go:56-84 | A stored petshop logs in exactly with a password its hash accepts |
| AuthService.AuthService.RegisterDono | application/services/auth_service.go:87-128 | A taken email gives "already exists" and creates nothing. A successful sign-up appends exactly the new owner, and logging in with the same email and password then succeeds |
| AuthService.AuthService.RegisterPetshop | application/services/auth_service.go:131-175 | The same for petshops; logging in afterwards succeeds |
| OwnershipMiddleware.DonoOwnershipRequired | presentation/middlewares/ownership_middleware.go:13-63 | An admin passes. Otherwise the request passes exactly when the caller is a `dono` whose id equals the path id and the id parses; every refusal is 403 |
| OwnershipMiddleware.OneOwnerPerToken | presentation/middlewares/ownership_middleware.go:49-58 | A non-admin token opens the resources of one owner only |
| PetshopMiddleware.PetshopOwnershipRequired | presentation/middlewares/petshop_midleware.go:13-62 | An admin passes. Otherwise the request passes exactly when the caller is a `petshop` whose id equals the path id and the id parses; every refusal is 403 |
| AgendamentoMiddleware.AgendamentoOwnershipRequired | presentation/middlewares/agendamento_middleware.go:22-95 | An unconfigured service gives 500, a missing kind 403, a malformed id 400, a missing appointment 404, any other lookup failure 500. Otherwise the request passes exactly when the caller is the appointment's owner or its petshop |
| ServicoMiddleware.ServicoOwnershipRequired | presentation/middlewares/servico_middleware.go:21-85 | A non-petshop caller gets 403, a malformed id 400, any lookup failure 404, and 500 exactly when the service is found but the token's own id is malformed. The request passes exactly when the caller's id is the service's petshop |
| ServicoMiddleware.PetshopOwnershipFromParamRequired | presentation/middlewares/servico_middleware.go:88-131 | Passes exactly when the caller is a `petshop` whose id equals the path parameter and parses; every refusal is 403 |
| ProcedimentosMiddleware.PetOwnershipRequired | presentation/middlewares/procedimentos_middleware.go:22-90 | A caller that is not a `dono` with a text id gets 403, a malformed pet id 400, a missing pet 404, and 500 exactly when the pet is found but the token's own id is malformed. The request passes exactly when the caller's id is the pet's owner |
| ProcedimentosMiddleware.StorageFailureIsNotFound | presentation/middlewares/procedimentos_middleware.go:57-66 | A failing pet lookup is answered 404, never 500, because the pet service reports every failure as "not found" |
| AuthMiddleware.Lookup | presentation/middlewares/auth_middleware.go:25-43 | An absent cookie, header or query value reads as empty |
| AuthMiddleware.BearerToken | presentation/middlewares/auth_middleware.go:33-37 | A header with the `Bearer ` prefix yields the rest; any other header yields no token |
| AuthMiddleware.BearerRoundTrip | presentation/middlewares/auth_middleware.go:33-48 | The header the extractor writes yields back the same token |
| AuthMiddleware.ExtractToken | presentation/middlewares/auth_middleware.go:25-43 | The token is the first non-empty source in the order: cookie `jwt`, cookie `token`, Bearer header, query `token` |
| AuthMiddleware.WithBearer | presentation/middlewares/auth_middleware.go:47-52 | A found token sets the header to exactly `Bearer ` plus the token; no token leaves the headers untouched |
| AuthMiddleware.ExtractTokenStable | presentation/middlewares/auth_middleware.go:21-57 | Running the extractor twice is the same as once: the written header yields the same token again |
| AuthMiddleware.TokenExtractor | presentation/middlewares/auth_middleware.go:21-57 | The request's headers become the extracted token written as a Bearer header; cookies and query are unchanged |
| AuthMiddleware.RoleRequired | presentation/middlewares/auth_middleware.go:62-107 | The shared role guard passes exactly when the `tipo` claim is the given role; otherwise 403 |
| AuthMiddleware.PetshopRequired | presentation/middlewares/auth_middleware.go:62-82 | Passes exactly when the `tipo` claim is `petshop`; otherwise 403 |
| AuthMiddleware.DonoRequired | presentation/middlewares/auth_middleware.go:87-107 | Passes exactly when the `tipo` claim is `dono`; otherwise 403 |
| AuthMiddleware.RolesExclusive | presentation/middlewares/auth_middleware.go:62-107 | No token passes both role guards |
| AuthMiddleware.PayloadFunc | presentation/middlewares/auth_middleware.go:181-219 | An owner's token holds id, email, name, kind and phone. A petshop's token also holds description and rating. The id and kind are the identity's own |
| AuthMiddleware.TextOr | presentation/middlewares/auth_middleware.go:255-273 | A missing or non-text optional claim defaults to the empty text |
| AuthMiddleware.NumberOr | presentation/middlewares/auth_middleware.go:275-278 | A missing or non-numeric rating defaults to 0 |
| AuthMiddleware.IdentityHandler | presentation/middlewares/auth_middleware.go:223-289 | An identity is decoded exactly when id is text and parses, email and name are present, and the kind is `dono` or `petshop`. It carries those claims |
| AuthMiddleware.IdentityRoundTrip | presentation/middlewares/auth_middleware.go:181-289 | Decoding the claims of a login token gives back the identity that logged in |
| AuthMiddleware.Authorizator | presentation/middlewares/auth_middleware.go:293-297 | A request is authorised exactly when an identity was decoded |
| AuthMiddleware.Authenticator | presentation/middlewares/auth_middleware.go:144-177 | An unreadable body gives "missing login values". Any other failure, including an unknown user type, gives "failed authentication". Success means the matching service accepted, and the identity is exactly the account that service returned, of the requested kind and email |
| AuthMiddleware.LoginTokenGrants | presentation/middlewares/auth_middleware.go:144-297 | The token issued at login is authorised and passes exactly its own role guard. It opens the owner's or petshop's own resources and no one else's |

## Left out

- I/O, HTTP plumbing, handlers, routes, `main.go` and the logging calls are not modelled. The services and guards are modelled as they are called.
- JWT mechanics are not modelled: signing, verification, refresh, cookie settings and the `LoginResponse`/`Unauthorized` writers. Claims are given as a map from names to text, number or boolean.
- Password hashing is a stand-in digest, and the check accepts exactly the hashed plaintext. bcrypt's own behaviour is not modelled. Hashing never fails here, so the "could not set the password" branches of the registration paths are not reachable in the model.
- Prices and totals are `real`, so float64 and float32 rounding is not modelled. The exact-sum check and the 0.01 check are exact predicates.
- Date parsing, formatting, `CreatedAt`/`UpdatedAt` and the clock are not modelled. A parsed date arrives as `Option<Time>`, and "now" is a parameter.
- KSUID generation is not modelled. New ids are parameters, and a clash with a stored key is a storage error. Common.ParseId models only the length and the base-62 alphabet: the 160-bit overflow check of KSUID parsing is not modelled, so any 27 base-62 characters parse, including the few the library rejects as too large.
- Soft delete (`DeletedAt`), SQL, GORM preloading and the connection pool are not modelled. A table is a sequence of rows, and a failing operation is named in the repository's `failing` set.
- Concurrency is not modelled: there is no locking in the program, and each operation runs alone.
- Text normalisation is ASCII only. Unicode case folding and Unicode white space are not modelled.
- Header names are matched case-sensitively.
- The difference between a nil and an empty slice in JSON responses is not modelled.
- The service fields `Preco` (float32) and `Duracao` (domain/entities/servico.go:18-19) are not modelled. No modelled operation reads or writes them; prices use `PrecoBase`.
- The repository method `FindByCity` has no implementation in the repository. It is modelled as a match of the stored city, trimmed and lower-cased, against the normalised query, with the `List` paging rules.
- The `tipo`, `email` and `nome` claims are assumed to be text once the handler reaches its type assertions, that is when the id is text that parses and all three keys are present: `AuthMiddleware.IdentityHandler` requires `TextualClaims`. Tokens that miss a key or carry a malformed id are modelled and give no identity. A non-text value past that point makes the program's type assertion panic, and that panic is not modelled; the server's own tokens always carry text there (`AuthMiddleware.IdentityRoundTrip`).
- AuthMiddleware.PayloadFunc: takes an `Identity`, so the branch returning empty claims for any other value is not modelled.
- AuthMiddleware.Authenticator: a login body that fails binding, including a malformed email, arrives as `None`. Email format validation itself is not modelled.
- AgendamentoService.AgendamentoService.UpdateStatus: builds the response from the record it just wrote rather than modelling a failed re-read. That re-read cannot fail, since the row was read under the same id a moment before, so its error branch is left out.
- AgendamentoService.AgendamentoService.UpdateStatus: requires a named status. The request binding admits only the four status texts.
- Repository operations outside the modelled paths are not modelled: pet `Update`, `Delete` and `List`; appointment `Delete`; procedure `GetByID` and `GetByPetshopID`. No modelled service calls them.
- Services are not modelled as nil-checked: the constructors take the repositories they need. The one guard that checks for a missing service, the appointment guard, is modelled with a nullable service.
- `DonoService.DonoService.CreateAsWritten` is read-only, because as written it never reaches the insert.

## Findings

| source | as written | input that shows it | evidently intended | confidence | as-written member | corrected member |
|---|---|---|---|---|---|---|
| application/services/dono_service.go:28-34 | Owner registration treats every `GetByEmail` outcome other than `ErrNotFound` as a failed check. The repository reports an absent email as "no owner, no error" (infrastructure/repositories/dono_repository.go:94-96), never as `ErrNotFound`. | Any new owner, even on an empty table: `GetByEmail` returns no owner and no error, so `Create` returns `ErrCheckExistingOwner` | Fail only on a real lookup error; refuse a taken email with `ErrAlreadyExists`; otherwise create the owner | not executed | DonoService.DonoService.CreateAsWritten | DonoService.DonoService.Create |
