# Agricultural weather monitoring — verified model of its core

A Dafny model of the sequential core of a small Python application for farm plots and their weather stations. The project has four parts:

- **Domain objects** (`usuario.dfy`, `estacion.dfy`, `parcela.dfy`, `sensores.dfy`, `lectura.dfy`):
  - a user with a duplicate-free list of assigned plots and a read-permission check;
  - a weather station that owns an ordered list of sensors;
  - a plot that owns an ordered list of stations and gathers the readings of its active ones;
  - three sensor kinds, each with its own range check and random draw.
- **The maze mini-game** (`laberinto.dfy`):
  - the 15×15 layout;
  - the scan that finds the entry `S` and the exit `E`;
  - the walkability test;
  - the arrow-key step;
  - the event loop, which runs until the exit is reached or the window is closed.
- **The support chat server** (`servidor.dfy`), run one step at a time:
  - the registry from connection to (nickname, address);
  - the broadcast that drops peers whose send fails;
  - the client session: handshake, relay loop, cleanup;
  - the operator console (`/usuarios`, `/salir`, spoken lines);
  - `shutdown`, the failure path of `start`, and `main`'s exit status.
- **The sensor screen of the desktop CRUD application** (`indexdb.dfy`):
  - the `ID=… | tipo=… | …` line each sensor is listed as;
  - the parser `_on_select` uses to read a selected line back into the form;
  - the status-combo decoder;
  - the field checks `_guardar` makes before inserting;
  - the loops that fill the station maps and the sensor list.

Supporting modules:

- `wrappers.dfy`: `Option` and `Result`.
- `seqs.dfy`: an order-preserving `Filter` with its lemmas, used for the list comprehensions.
- `text.dfy`: the Python string operations the code relies on:
  - `strip`, `rstrip("\n")` and `strip("()")`;
  - `split` and `join`;
  - substring `in` and `rfind`;
  - slicing;
  - `str(int)` and `int(str)`.

How each form of the source is modelled:

- Objects whose fields change become classes, with field-granular `modifies` clauses:
  - `Usuario`, `EstacionMeteorologica`, `Parcela`;
  - `SupportServer`;
  - `AppCrud`, whose widget contents are fields.
- Each loop of the source is a `while` loop with invariants, proved against a pure specification function:
  - `ObtenerTodasLecturas` and `ObtenerDatosClima`;
  - `BuscarPuntos` and `JugarLaberinto`;
  - `Broadcast`, `HandleClient`, `OperatorLoop` and `Shutdown`;
  - `LoadEstaciones` and `LoadSensores`.
- The lemmas state what the source promises of those functions.

Behaviours of the code worth noting:

- The nickname is `strip()`ped on both sides.
- The notices are the Spanish texts the code sends (`[SISTEMA] … se ha unido al chat`, `[SISTEMA] … ha salido del chat`, `[SOPORTE] …`).
- An empty nickname is accepted. The roster then prints `(ninguno)` both for an empty registry and for a registry holding one client with an empty nickname (`Servidor.RosterNone`).

Further behaviours the model keeps:

- A sensor stored without a range is listed as `rango=(None,None)`. Selecting it puts `None` into both range entries, so saving the form again is refused as a bad number (`IndexDb.NoRangeNotResavable`).
- When a parse step of `_on_select` raises, the writes made before it stay and the later steps are skipped (`IndexDb.ApplySelect`).

## Model

| member | source | states |
|---|---|---|
| Usuarios.AsignadasExtiende | usuario.py:21-23 | assigning keeps the old list as a prefix; the id is present afterwards; a new id is appended at the end; a present id leaves the list unchanged |
| Usuarios.AsignadasIdempotente | usuario.py:21-23 | assigning the same plot twice equals assigning it once |
| Usuarios.AsignadasSinDuplicados | usuario.py:16-23 | a duplicate-free plot list stays duplicate-free after an assignment |
| Usuarios.AccesoTrasAsignar | usuario.py:18-23 | after assigning p, access to p holds iff the user has `lectura_parcela`; access to every other plot is unchanged |
| Usuarios.Usuario.constructor | usuario.py:7-16 | a new user stores its arguments, the assigned plots included (the empty list by default), with no check for repeats |
| Usuarios.Usuario.AsignarParcela | usuario.py:21-23 | only `parcelasAsignadas` changes, and it becomes the old list with the id appended unless already there; a list without repeats keeps none |
| Usuarios.Usuario.ObtenerParcelas | usuario.py:25-26 | returns the assigned ids and changes nothing |
| Usuarios.PruebaUsuario | usuario.py:34-38 | the module's own test: after assigning 10, access to 10 is granted, access to 11 is denied, and the plots are exactly [10] |
| Estaciones.SinSensor | estacion.py:24-25 | the result holds exactly the sensors whose id differs; it is shorter iff some sensor had the id, and equal to the input when none did |
| Estaciones.SensoresActivos | estacion.py:27-28 | the result holds exactly the sensors whose `estado` is true |
| Estaciones.SinSensorConservaOrden | estacion.py:24-25 | removal by id distributes over concatenation, so survivors keep their order |
| Estaciones.SinSensorIdempotente | estacion.py:24-25 | removing the same id twice equals removing it once |
| Estaciones.SensoresActivosConservaOrden | estacion.py:27-28 | the active filter distributes over concatenation, so the order is preserved |
| Estaciones.EstacionMeteorologica.constructor | estacion.py:12-19 | a station stores its id, name, active flag and sensor list |
| Estaciones.EstacionMeteorologica.AgregarSensor | estacion.py:21-22 | the sensor list becomes the old list plus the new sensor at the end, with no id check |
| Estaciones.EstacionMeteorologica.RemoverSensor | estacion.py:24-25 | the sensor list becomes `SinSensor` of the old list |
| Estaciones.EstacionMeteorologica.ObtenerTodasLecturas | estacion.py:30-34 | succeeds iff every active sensor is readable; then returns one reading per active sensor, in order, each with that sensor's id and a value in its range; otherwise returns the temperature error |
| Estaciones.DescripcionReportaSensores | estacion.py:36-37 | the text after the last `=` of the string form, up to `)`, parses back to the number of sensors |
| Estaciones.PruebaEstacion | estacion.py:44-49 | the module's own test: one sensor after the add, at least one reading, none after the removal |
| Sensores.Uniforme | sensores.py:39 | the draw lies in the closed interval between the two bounds, in either order |
| Sensores.ObtenerLectura | sensores.py:38-73 | a reading is returned iff the sensor is readable; the reading carries the sensor's id and a value that passes the range check and can be drawn; a failure carries the kind's message |
| Sensores.TemperaturaInvertidaRechazaTodo | sensores.py:35-41 | with `rango_min > rango_max`, no value passes the check, so the reading always raises |
| Sensores.SorteoValido | sensores.py:35-73 | every drawable value passes the range check iff the sensor is readable: humidity and precipitation always are, temperature unless its range is inverted |
| Sensores.PruebaSensores | sensores.py:81-86 | the module's own test: temperature in [-5, 5], humidity in [0, 100], precipitation ≥ 0 |
| Parcelas.SinEstacion | parcela.py:34-35 | the result holds exactly the stations whose id differs; it is shorter iff some station had the id, and unchanged otherwise |
| Parcelas.EstacionesActivas | parcela.py:37-38 | the result holds exactly the stations whose `activa` is true |
| Parcelas.SinEstacionConservaOrden | parcela.py:34-35 | removal by id distributes over concatenation |
| Parcelas.EstacionesActivasConservaOrden | parcela.py:37-38 | the active filter distributes over concatenation |
| Parcelas.SensoresClimaConcat | parcela.py:40-44 | the sensors a list of stations is read from are those of its parts, in order |
| Parcelas.SensoresClimaSoloActivas | parcela.py:40-44 | inactive stations contribute no sensors |
| Parcelas.SensoresClimaCuenta | parcela.py:40-44 | the number of readings equals the sum, over active stations, of their active-sensor counts |
| Parcelas.TodasActivasCuenta | parcela.py:40-44 | over active stations only, the count is the sum of their active-sensor counts |
| Parcelas.Parcela.constructor | parcela.py:17-29 | a plot stores its data and the given stations (the empty list by default) |
| Parcelas.Parcela.AgregarEstacion | parcela.py:31-32 | the station list becomes the old list plus the station at the end |
| Parcelas.Parcela.RemoverEstacion | parcela.py:34-35 | the station list becomes `SinEstacion` of the old list |
| Parcelas.Parcela.ObtenerDatosClima | parcela.py:40-44 | succeeds iff every sensor of every active station is readable; then returns one reading per such sensor, in station order; otherwise returns the error |
| Parcelas.DescripcionReportaEstaciones | parcela.py:46-47 | the text after the last `=` of the string form parses back to the number of stations |
| Parcelas.PruebaParcela | parcela.py:53-61 | the module's own test: at least one reading, and no station after the removal |
| Laberinto.UltimaCelda | laberinto.py:37-46 | the found cell holds the character, with no later match in its row and none in later rows; absent iff no row holds it |
| Laberinto.BuscarPuntos | laberinto.py:37-49 | the nested scan returns the last `S` and the last `E` in row-major order; it fails with the source's message iff either is missing |
| Laberinto.EsCamino | laberinto.py:52-58 | a row or column out of bounds (columns measured on row 0) is not a path; on a rectangular grid there is no error; a path cell is never a wall |
| Laberinto.EsCaminoCelda | laberinto.py:52-58 | inside a rectangular grid, a cell is a path iff it holds `0`, `S` or `E` |
| Laberinto.Mover | laberinto.py:113-131 | the player moves iff an arrow key points at a walkable cell; then to that adjacent cell; otherwise stays |
| Laberinto.MoverPaso | laberinto.py:114-126 | the step as the key's offset followed by `_es_camino` on the target |
| Laberinto.PartidaTransitable | laberinto.py:108-131 | a game starting on a walkable cell always ends on one |
| Laberinto.LlegadaTermina | laberinto.py:132-135 | once the exit is reached, later events change nothing, and the final position is the exit |
| Laberinto.PuntosDelLaberinto | laberinto.py:7-23 | the layout is 15×15 and rectangular; its entry is (1,1) and its exit (13,13) |
| Laberinto.Pulsar | laberinto.py:113-131 | an arrow-key event yields the position `Mover` gives, and reports whether the player moved |
| Laberinto.Inicio | laberinto.py:85-96 | the game starts at the entry (1,1), which is walkable, with the exit (13,13) |
| Laberinto.JugarLaberinto | laberinto.py:108-135 | the event loop ends as `Partida` says: on a walkable cell, at the exit when it ended by arrival |
| Servidor.Lookup | servidor.py:92-93 | finds an entry of that connection iff the registry has one |
| Servidor.Pop | servidor.py:117-118 | removes the connection's entries and keeps all the others; shorter iff the connection was registered |
| Servidor.PopUnique | servidor.py:92-93 | popping keeps each connection registered at most once |
| Servidor.Put | servidor.py:72-73 | the assignment replaces the entry in place or appends it, and leaves other connections' entries alone |
| Servidor.PutLookup | servidor.py:72-73 | after registering, the connection maps to its new entry, other lookups are unchanged, and keys stay unique |
| Servidor.LookupUnique | servidor.py:18 | with unique keys, a lookup finds the entry stored under the key |
| Servidor.FanoutLog | servidor.py:106-118 | the broadcast loop's network calls are those of each snapshot connection, in order |
| Servidor.FanoutClients | servidor.py:106-118 | an entry survives the broadcast loop iff it was registered and is not a snapshot connection, outside `exclude`, whose send fails |
| Servidor.FanoutUnique | servidor.py:106-118 | the broadcast loop keeps registry keys unique |
| Servidor.DeliveriesEach | servidor.py:102-118 | with nothing excluded, each snapshot connection gets exactly one call, in order: the send of the data, or a close when that send fails |
| Servidor.BroadcastEffect | servidor.py:102-118 | a broadcast sends `message + "\n"` to every registered connection in order, and drops exactly the failing ones |
| Servidor.DepartureNotice | servidor.py:91-100 | cleanup closes the connection; the departure notice goes out iff the entry was still registered; the connection is gone afterwards |
| Servidor.DepartureOnce | servidor.py:92-100 | cleaning up twice sends only one departure notice |
| Servidor.RaisedHandshake | servidor.py:62-98 | a session whose first `recv` raises (the handshake timeout at line 64, or a reset) never registers, broadcasts nothing, and only closes its socket |
| Servidor.EmptyHandshake | servidor.py:65-68 | a session whose first read is empty never registers and sends nothing |
| Servidor.SessionExample | servidor.py:62-100 | a concrete session that joins, speaks one line and leaves produces the expected registry and network log |
| Servidor.ExampleNick | servidor.py:69 | the nickname `" bob\n"` is stripped to `bob` |
| Servidor.ExampleTexts | servidor.py:75-103 | the join, relay and departure notices, each with its one newline |
| Servidor.BroadcastToPair | servidor.py:102-118 | a broadcast to two clients with no failure sends to both, in order |
| Servidor.LeavePair | servidor.py:91-100 | the second of two clients leaving closes its socket and tells the first |
| Servidor.ChatShrinks | servidor.py:77-83 | the relay loop only removes entries, keeps keys unique, and its own connection ends up unregistered |
| Servidor.DepartedShrinks | servidor.py:91-100 | cleanup only removes entries, and its own connection is gone afterwards |
| Servidor.SessionLeavesRegistry | servidor.py:62-100 | whatever the client does, after its session the registry has unique keys, no entry for it, and no entry that was not there before |
| Servidor.ClassifyMeaning | servidor.py:122-132 | a line is `/usuarios`, `/salir` or blank iff its stripped text is; otherwise it is spoken as the line with trailing newlines removed |
| Servidor.RosterNone | servidor.py:125-127 | the joined roster is empty iff there are no clients or one client with an empty nickname; `(ninguno)` when empty; the join for two or more |
| Servidor.QuitStops | servidor.py:128-130 | lines after `/salir` are never acted on |
| Servidor.SilentOperator | servidor.py:120-132 | listings, blank lines and `/salir` leave the registry and the network untouched |
| Servidor.ListingsCount | servidor.py:124-127 | before `/salir`, the console prints one listing per `/usuarios` |
| Servidor.ShutDownIdempotent | servidor.py:138-166 | shutting down twice equals shutting down once |
| Servidor.ShutDownClosesAll | servidor.py:152-163 | every client still registered when shutdown starts gets its socket closed |
| Servidor.SupportServer.constructor | servidor.py:14-20 | a new server has no socket, no clients, is not stopped, and has done nothing on the network |
| Servidor.SupportServer.Broadcast | servidor.py:102-118 | the loop's new registry and log are those of `Broadcasted`; keys stay unique |
| Servidor.SupportServer.Cleanup | servidor.py:91-100 | the new state is `Departed` of the old one |
| Servidor.SupportServer.HandleClient | servidor.py:62-100 | the session's new state is `Session` of the old one |
| Servidor.SupportServer.OperatorLoop | servidor.py:120-136 | the new state is `ShutDown` after the commands, the listings are those printed, and the server ends stopped, without a socket, with an empty registry |
| Servidor.SupportServer.Shutdown | servidor.py:138-166 | stopped, no socket, empty registry, and the log of `ShutDown` |
| Servidor.SupportServer.Start | servidor.py:22-43 | raises iff the socket setup fails; then the socket is reset to None, the one held is closed, and nothing else changes; otherwise it runs the operator loop to shutdown |
| Servidor.ServerMain | servidor.py:169-175 | exit status 0 iff the server started, otherwise 1 |
| IndexDb.EntriesLast | indexdb.py:400-401 | a key maps to the value of the last segment carrying it |
| IndexDb.EntriesDistinct | indexdb.py:400-401 | with distinct keys, every segment's value is found under its key |
| IndexDb.SelectRoundTrip | indexdb.py:399-419 | parsing a line written by `_load_sensores` (lines 303-305) recovers the row's id, type, unit, precision, both bounds, state and station name, when the values are clean |
| IndexDb.StationOfLine | indexdb.py:417-419 | the station name of a listed line is the row's station |
| IndexDb.RangeDefault | indexdb.py:407-409 | without a `rango` key, the range reads as two blank bounds |
| IndexDb.LeerEstado | indexdb.py:313-315 | the state read is always 0 or 1 |
| IndexDb.LeerEstadoChoices | indexdb.py:224-225 | the combo's first choice `Activo (1)` reads as 1 and `Inactivo (0)` as 0 |
| IndexDb.EstadoRoundTrip | indexdb.py:414 | after selecting a listed sensor, the combo reads back as 1 iff the row's state is 1 |
| IndexDb.ParseDecimalInt | indexdb.py:321 | every text `int()` accepts is accepted by `float()` with the same value |
| IndexDb.ParseDecimalBlank | indexdb.py:321-325 | blank text is never a number |
| IndexDb.SaveCheck | indexdb.py:317-342 | refused for bad numbers first, then for no station, then for blank type or unit, each iff its condition holds; otherwise the stripped texts, parsed numbers, state and looked-up station id are handed over |
| IndexDb.Names | indexdb.py:288-295 | the combo values are the station names, in listing order |
| IndexDb.NameMapDomain | indexdb.py:291-294 | a name can be looked up iff some listed station has it |
| IndexDb.NameMapLast | indexdb.py:291-294 | a name maps to the id of the last station listed under it |
| IndexDb.IdMapListed | indexdb.py:291-294 | with unique ids, each id maps to its listed name |
| IndexDb.MapsAgree | indexdb.py:291-294 | looking up a name, then its id, gives the name back |
| IndexDb.Listing | indexdb.py:302-306 | one list line per row: line i is the listing line of row i |
| IndexDb.LoadedStatusCount | indexdb.py:308-309 | the status text's count parses back to the number of rows |
| IndexDb.ClearedFormRefused | indexdb.py:380-389 | saving a just-cleared form is refused for its blank precision |
| IndexDb.SelectThenSave | indexdb.py:317-342 | saving a form filled from a listed sensor hands over that sensor's type, unit, precision, state and station id |
| IndexDb.NoRangeNotResavable | indexdb.py:321-325 | a sensor listed with `rango=(None,None)` cannot be saved again from its form: refused as a bad number |
| IndexDb.AppCrud.constructor | indexdb.py:174-262 | the station combo and maps come from the listed stations (the default one created when none are listed), the list holds one line per row, the status counts them, the type, unit and state combos are at their first choices, the precision and range entries are blank, and the station text is the first listed name (blank when none) |
| IndexDb.AppCrud.LoadEstaciones | indexdb.py:264-297 | the combo values, name→id map and id→name map are those of the listed stations; the first name is selected; the default station is created iff none were listed |
| IndexDb.AppCrud.LoadSensores | indexdb.py:299-311 | the list becomes one line per row, the selection is dropped, and the status counts the rows |
| IndexDb.AppCrud.LeerEstadoCb | indexdb.py:313-315 | the state read is 1 minus the combo index |
| IndexDb.AppCrud.Limpiar | indexdb.py:380-390 | the form becomes the cleared form, keeping the station text when the combo is empty; the selection is dropped |
| IndexDb.AppCrud.OnSelect | indexdb.py:392-422 | without a selection nothing changes; otherwise the form becomes `ApplySelect` of the selected line |
| IndexDb.AppCrud.FillRangeFields | indexdb.py:407-419 | the range, state and station steps write the fields `FillRange` gives |
| IndexDb.AppCrud.ReadForm | indexdb.py:318-336 | the outcome is `SaveCheck` on the current widget texts |
| IndexDb.AppCrud.Guardar | indexdb.py:317-342 | a refusal shows its message and changes nothing else; a valid form is inserted once, the success message shown, the form cleared and the list reloaded |
| IndexDb.AppCrud.Commit | indexdb.py:337-340 | the row is inserted, the success message shown, the form cleared and the list reloaded from the given rows |
| Text.ParseIntToString | indexdb.py:402 | `int(str(i)) == i` for every integer |
| Text.SplitJoin | servidor.py:126 | splitting what was joined with a one-character separator gives the parts back, when no part holds it |
| Text.StripNewlines | servidor.py:123-124 | `line.rstrip("\n").strip() == line.strip()` |
| Text.RFindLast | indexdb.py:418 | `rfind` finds the last occurrence of the character |

## Left out

- Sockets, `threading`, the lock, timeouts, the one-second polling of `_accept_loop`, stdin iteration, `print` and logging are not modelled. Each server step runs atomically. Each accepted connection is one `HandleClient` call, and the console lines are a parameter.
- Whether a `sendall` fails is outside the server's control. It is a parameter: the set of connections whose send raises. That set is fixed for a whole `HandleClient`, `OperatorLoop`, `Shutdown` or `Start` call. So within one call, a connection's sends either all succeed or its first send fails and it is dropped. A peer that receives some messages and then fails on a later send is not modelled.
- `close` and `shutdown(SHUT_RDWR)` of a client socket are modelled as never raising. The source swallows their errors, so the registry is unaffected either way.
- Byte decoding (`decode(errors="ignore")`) and the 1024/4096-byte `recv` limits are not modelled. A client's input is a script of decoded chunks.
- `KeyboardInterrupt` in the operator loop is not modelled separately. Like end of input, it ends the loop and calls `shutdown`.
- The accept-loop exceptions and `start`'s `setsockopt` step are folded into the `Startup` outcome: the socket cannot be created, or bind/listen fails.
- Sensores.ObtenerLectura: the value is not passed through `round(valor, 2)` or `round(valor, 1)`, and `datetime.now()` is an arbitrary instant. The range facts are therefore proved for the unrounded draw.
- Floating point is modelled with `real`. `float()` is modelled for decimal text only (surrounding whitespace, sign, digits, one point). Exponents, `inf`, `nan` and underscores are not modelled.
- `int()` is modelled without underscores and without non-ASCII digits.
- `strip()` treats as whitespace only the characters up to U+00FF that Python counts as whitespace.
- The float columns of a listed sensor are kept as the text `str()` gives them. Python's float formatting is not modelled.
- The SQL layer is not modelled: `crear_bd`, `create_connection`, the `EstacionManager` and `SensorManager` queries, sqlite errors, the default plot inserted for the foreign key, and the commit calls. What a query returns is a parameter. An insert is recorded in the `inserted` field, and the default station in `createdStations`.
- `_actualizar`, `_borrar` and `_generar_informe` of the CRUD screen are not part of this model. Neither are `meteorologiadb.py`, `main.py` or `cliente_chat.py`.
- Message boxes are recorded as `Dialog` values. Widget construction and layout are not modelled.
- The status bar is a `Status` value shown through `StatusText`. The `try/except` around `status.set` never fires in the model.
- The list box holds at most one selected index. Only the first entry of `curselection()` is used, as in the source.
- The maze's pygame drawing, fonts, frame clock and elapsed-time message are not modelled. The event stream is a finite sequence of `Evento` values. When it runs out with the game still on, the result is `EnJuego`.
- Coordinates, altitude, area, soil and water sources of plots and stations are not modelled, and neither is the string form of users and sensors. These have no behaviour.
- `Lectura.__str__` depends on float repr and `isoformat`, and is not modelled.
