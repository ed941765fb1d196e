/** The maze mini-game without its drawing: a grid of strings where `1` is a
    wall, `0` a free cell, `S` the entry and `E` the exit; locating the entry
    and exit, deciding whether a cell can be entered, and the player's moves
    in response to arrow keys until the exit is reached or the window is
    closed. Positions are (column, row) pairs, as in the source. */
module Laberinto {
  import opened Wrappers
  import opened Text

  const MazeLayout: seq<string> := [
    "111111111111111",
    "1S0001101110011",
    "111101101011101",
    "101100000001101",
    "101011101101011",
    "110000000001101",
    "100111011010111",
    "110100101011001",
    "110111100011101",
    "110000000000011",
    "101110111011001",
    "100010101011011",
    "111010111011001",
    "1010001010110E1",
    "111111111111111"
  ]

  datatype Punto = Punto(col: int, fila: int)

  /** Every row as wide as the first one. */
  ghost predicate Rectangular(layout: seq<string>)
  {
    forall f :: 0 <= f < |layout| ==> |layout[f]| == |layout[0]|
  }

  /** Where the scan has got to: the match found so far in the current row,
      if any, otherwise the last one found in the rows before. */
  function EnFila(antes: Option<Punto>, enFila: Option<nat>, fila: int): Option<Punto>
  {
    match enFila
    case Some(k) => Some(Punto(k, fila))
    case None => antes
  }

  /** The last cell holding `c` in row-major order (rows top to bottom, each
      row left to right), which is the one a scan that overwrites its result
      on every match ends with. */
  function UltimaCelda(layout: seq<string>, c: char): (r: Option<Punto>)
    ensures r.Some? ==> 0 <= r.value.fila < |layout| && 0 <= r.value.col < |layout[r.value.fila]|
    ensures r.Some? ==> layout[r.value.fila][r.value.col] == c
    ensures r.Some? ==> forall k :: r.value.col < k < |layout[r.value.fila]| ==> layout[r.value.fila][k] != c
    ensures r.Some? ==> forall f :: r.value.fila < f < |layout| ==> c !in layout[f]
    ensures r.None? <==> forall f :: 0 <= f < |layout| ==> c !in layout[f]
  {
    if layout == [] then None
    else
      var ultima := layout[|layout| - 1];
      var previas := layout[..|layout| - 1];
      assert forall f :: 0 <= f < |previas| ==> previas[f] == layout[f];
      EnFila(UltimaCelda(previas, c), RFind(ultima, c), |layout| - 1)
  }

  lemma RFindSnoc(s: string, x: char, c: char)
    ensures RFind(s + [x], c) == if x == c then Some(|s|) else RFind(s, c)
  {
    assert (s + [x])[..|s|] == s;
  }

  lemma UltimaCeldaSnoc(layout: seq<string>, fila: nat, c: char)
    requires fila < |layout|
    ensures UltimaCelda(layout[..fila + 1], c) == EnFila(UltimaCelda(layout[..fila], c), RFind(layout[fila], c), fila)
  {
    assert layout[..fila + 1][..fila] == layout[..fila];
  }

  /** `_buscar_puntos`: the last `S` and the last `E` of the scan, or
      `ValueError` when either is missing. */
  method BuscarPuntos(layout: seq<string>) returns (r: Result<(Punto, Punto), string>)
    ensures r.Ok? <==> UltimaCelda(layout, 'S').Some? && UltimaCelda(layout, 'E').Some?
    ensures r.Ok? ==> r.value == (UltimaCelda(layout, 'S').value, UltimaCelda(layout, 'E').value)
    ensures r.Err? ==> r.error == "El laberinto debe tener una entrada 'S' y una salida 'E'."
  {
    var entrada: Option<Punto> := None;
    var salida: Option<Punto> := None;
    var fila := 0;
    while fila < |layout|
      invariant 0 <= fila <= |layout|
      invariant entrada == UltimaCelda(layout[..fila], 'S')
      invariant salida == UltimaCelda(layout[..fila], 'E')
    {
      var line := layout[fila];
      var col := 0;
      while col < |line|
        invariant 0 <= col <= |line|
        invariant entrada == EnFila(UltimaCelda(layout[..fila], 'S'), RFind(line[..col], 'S'), fila)
        invariant salida == EnFila(UltimaCelda(layout[..fila], 'E'), RFind(line[..col], 'E'), fila)
      {
        RFindSnoc(line[..col], line[col], 'S');
        RFindSnoc(line[..col], line[col], 'E');
        assert line[..col + 1] == line[..col] + [line[col]];
        if line[col] == 'S' {
          entrada := Some(Punto(col, fila));
        } else if line[col] == 'E' {
          salida := Some(Punto(col, fila));
        }
        col := col + 1;
      }
      assert line[..col] == line;
      UltimaCeldaSnoc(layout, fila, 'S');
      UltimaCeldaSnoc(layout, fila, 'E');
      fila := fila + 1;
    }
    assert layout[..fila] == layout;
    if entrada.None? || salida.None? {
      r := Err("El laberinto debe tener una entrada 'S' y una salida 'E'.");
    } else {
      r := Ok((entrada.value, salida.value));
    }
  }

  /** `_es_camino`: out of the grid (rows counted on the layout, columns on
      the width of row 0) is never a path; inside it, the free cell, the
      entry and the exit are. A row shorter than row 0 makes the lookup
      raise `IndexError`. */
  function EsCamino(layout: seq<string>, col: int, fila: int): (r: Result<bool, string>)
    ensures fila < 0 || fila >= |layout| ==> r == Ok(false)
    ensures 0 <= fila < |layout| && (col < 0 || col >= |layout[0]|) ==> r == Ok(false)
    ensures Rectangular(layout) ==> r.Ok?
    ensures r == Ok(true) ==> 0 <= fila < |layout| && 0 <= col < |layout[fila]| && layout[fila][col] != '1'
  {
    if fila < 0 || fila >= |layout| then Ok(false)
    else if col < 0 || col >= |layout[0]| then Ok(false)
    else if col >= |layout[fila]| then Err("string index out of range")
    else Ok(layout[fila][col] in {'0', 'S', 'E'})
  }

  /** Inside a rectangular grid a cell is a path exactly when it holds `0`,
      `S` or `E`. */
  lemma EsCaminoCelda(layout: seq<string>, col: int, fila: int)
    requires Rectangular(layout)
    requires 0 <= fila < |layout| && 0 <= col < |layout[0]|
    ensures EsCamino(layout, col, fila) == Ok(true) <==> layout[fila][col] in "0SE"
  {
  }

  /** The player can stand on this cell of the game's maze. */
  predicate Transitable(p: Punto)
  {
    EsCamino(MazeLayout, p.col, p.fila) == Ok(true)
  }

  datatype Tecla = Arriba | Abajo | Izquierda | Derecha | OtraTecla

  datatype Evento = Cerrar | Pulsada(tecla: Tecla) | OtroEvento

  /** The (dx, dy) an arrow key asks for; any other key asks for none. */
  function Desplazamiento(t: Tecla): (int, int)
  {
    match t
    case Arriba => (0, -1)
    case Abajo => (0, 1)
    case Izquierda => (-1, 0)
    case Derecha => (1, 0)
    case OtraTecla => (0, 0)
  }

  function Destino(p: Punto, t: Tecla): Punto
  {
    Punto(p.col + Desplazamiento(t).0, p.fila + Desplazamiento(t).1)
  }

  /** Two cells one step apart on exactly one axis. */
  predicate Adyacentes(p: Punto, q: Punto)
  {
    (p.fila == q.fila && (q.col == p.col + 1 || q.col == p.col - 1)) ||
    (p.col == q.col && (q.fila == p.fila + 1 || q.fila == p.fila - 1))
  }

  /** One key press: the player moves to the neighbouring cell the key
      points at when that cell is a path, and otherwise stays. */
  function Mover(p: Punto, t: Tecla): (q: Punto)
    ensures q == p || (Adyacentes(p, q) && Transitable(q))
    ensures q != p <==> t != OtraTecla && Transitable(Destino(p, t))
    ensures q != p ==> q == Destino(p, t)
  {
    var (dx, dy) := Desplazamiento(t);
    assert Destino(p, t) == Punto(p.col + dx, p.fila + dy);
    assert dx != 0 || dy != 0 <==> t != OtraTecla;
    if dx != 0 || dy != 0 then
      if EsCamino(MazeLayout, p.col + dx, p.fila + dy) == Ok(true) then Punto(p.col + dx, p.fila + dy) else p
    else p
  }

  lemma MoverPaso(p: Punto, t: Tecla)
    ensures Mover(p, t) ==
      if Desplazamiento(t) != (0, 0) && EsCamino(MazeLayout, Destino(p, t).col, Destino(p, t).fila) == Ok(true)
      then Destino(p, t) else p
  {
  }

  /** How play stopped: the exit was reached, the window was closed, or the
      events ran out with the game still on. */
  datatype Fin = Llegada | Cerrada | EnJuego

  /** The course of a game from position `p` over a stream of events. */
  function Partida(p: Punto, salida: Punto, eventos: seq<Evento>): (Fin, Punto)
    decreases |eventos|
  {
    if eventos == [] then (EnJuego, p)
    else
      match eventos[0]
      case Cerrar => (Cerrada, p)
      case OtroEvento => Partida(p, salida, eventos[1..])
      case Pulsada(t) =>
        var q := Mover(p, t);
        if q != p && q == salida then (Llegada, q) else Partida(q, salida, eventos[1..])
  }

  /** One event of a game. */
  lemma PartidaPaso(p: Punto, salida: Punto, eventos: seq<Evento>)
    requires eventos != []
    ensures Partida(p, salida, eventos) ==
      match eventos[0]
      case Cerrar => (Cerrada, p)
      case OtroEvento => Partida(p, salida, eventos[1..])
      case Pulsada(t) =>
        if Mover(p, t) != p && Mover(p, t) == salida then (Llegada, Mover(p, t))
        else Partida(Mover(p, t), salida, eventos[1..])
  {
  }

  /** One event of a game, read at position `i` of the event list. */
  lemma PartidaEn(p: Punto, salida: Punto, eventos: seq<Evento>, i: nat)
    requires i < |eventos|
    ensures Partida(p, salida, eventos[i..]) ==
      match eventos[i]
      case Cerrar => (Cerrada, p)
      case OtroEvento => Partida(p, salida, eventos[i + 1..])
      case Pulsada(t) =>
        if Mover(p, t) != p && Mover(p, t) == salida then (Llegada, Mover(p, t))
        else Partida(Mover(p, t), salida, eventos[i + 1..])
  {
    PartidaPaso(p, salida, eventos[i..]);
    assert eventos[i..][0] == eventos[i] && eventos[i..][1..] == eventos[i + 1..];
  }

  /** The player never leaves the paths: a game that starts on one ends on
      one. */
  lemma {:induction false} PartidaTransitable(p: Punto, salida: Punto, eventos: seq<Evento>)
    requires Transitable(p)
    ensures Transitable(Partida(p, salida, eventos).1)
    decreases |eventos|
  {
    if eventos != [] {
      match eventos[0] {
        case Cerrar =>
        case OtroEvento => PartidaTransitable(p, salida, eventos[1..]);
        case Pulsada(t) => PartidaTransitable(Mover(p, t), salida, eventos[1..]);
      }
    }
  }

  /** Reaching the exit ends play: events after it change nothing, and the
      player stands on the exit. */
  lemma {:induction false} LlegadaTermina(p: Punto, salida: Punto, eventos: seq<Evento>, despues: seq<Evento>)
    requires Partida(p, salida, eventos).0 == Llegada
    ensures Partida(p, salida, eventos + despues) == Partida(p, salida, eventos)
    ensures Partida(p, salida, eventos).1 == salida
    decreases |eventos|
  {
    assert (eventos + despues)[0] == eventos[0];
    assert (eventos + despues)[1..] == eventos[1..] + despues;
    match eventos[0] {
      case Cerrar =>
      case OtroEvento => LlegadaTermina(p, salida, eventos[1..], despues);
      case Pulsada(t) =>
        var q := Mover(p, t);
        if !(q != p && q == salida) {
          LlegadaTermina(q, salida, eventos[1..], despues);
        }
    }
  }

  /** The game's maze is 15 by 15, its entry is (1, 1) and its exit (13, 13). */
  lemma PuntosDelLaberinto()
    ensures |MazeLayout| == 15 && Rectangular(MazeLayout) && |MazeLayout[0]| == 15
    ensures UltimaCelda(MazeLayout, 'S') == Some(Punto(1, 1))
    ensures UltimaCelda(MazeLayout, 'E') == Some(Punto(13, 13))
  {
    assert MazeLayout[1][1] == 'S';
    assert MazeLayout[13][13] == 'E';
    assert forall f :: 0 <= f < |MazeLayout| ==> |MazeLayout[f]| == 15;
    assert forall k :: 1 < k < 15 ==> MazeLayout[1][k] != 'S';
    assert forall f :: 1 < f < 15 ==> 'S' !in MazeLayout[f];
    assert MazeLayout[13][14] != 'E';
    assert 'E' !in MazeLayout[14];
  }

  /** One arrow-key event of `jugar_laberinto`: the offset the key asks
      for, then the move when the target cell is a path. */
  method Pulsar(col: int, fila: int, tecla: Tecla) returns (nuevoCol: int, nuevoFila: int, movido: bool)
    ensures Punto(nuevoCol, nuevoFila) == Mover(Punto(col, fila), tecla)
    ensures movido <==> Punto(nuevoCol, nuevoFila) != Punto(col, fila)
  {
    var dx, dy := 0, 0;
    if tecla == Arriba {
      dy := -1;
    } else if tecla == Abajo {
      dy := 1;
    } else if tecla == Izquierda {
      dx := -1;
    } else if tecla == Derecha {
      dx := 1;
    }
    assert (dx, dy) == Desplazamiento(tecla);
    MoverPaso(Punto(col, fila), tecla);
    nuevoCol, nuevoFila, movido := col, fila, false;
    if dx != 0 || dy != 0 {
      if EsCamino(MazeLayout, col + dx, fila + dy) == Ok(true) {
        nuevoCol, nuevoFila, movido := col + dx, fila + dy, true;
      }
    }
  }

  /** The start of `jugar_laberinto`: the entry and exit of the game's
      maze, the player standing on the entry. */
  method Inicio() returns (entrada: Punto, salida: Punto)
    ensures entrada == Punto(1, 1) && salida == Punto(13, 13) && Transitable(entrada)
  {
    var puntos := BuscarPuntos(MazeLayout);
    PuntosDelLaberinto();
    entrada := puntos.value.0;
    salida := puntos.value.1;
  }

  /** The event loop of `jugar_laberinto` over the events it receives: the
      player starts on the entry, a closed window ends the game at once, an
      arrow key moves the player onto a path cell, and entering the exit ends
      play. */
  method JugarLaberinto(eventos: seq<Evento>) returns (fin: Fin, posicion: Punto)
    ensures (fin, posicion) == Partida(Punto(1, 1), Punto(13, 13), eventos)
    ensures Transitable(posicion)
    ensures fin == Llegada ==> posicion == Punto(13, 13)
  {
    var entrada, salida := Inicio();
    var col, fila := entrada.col, entrada.fila;
    var i := 0;
    while i < |eventos|
      invariant 0 <= i <= |eventos|
      invariant Transitable(Punto(col, fila))
      invariant Partida(Punto(col, fila), salida, eventos[i..]) == Partida(entrada, salida, eventos)
    {
      PartidaEn(Punto(col, fila), salida, eventos, i);
      match eventos[i] {
        case Cerrar =>
          fin, posicion := Cerrada, Punto(col, fila);
          return;
        case OtroEvento =>
        case Pulsada(tecla) =>
          var movido;
          col, fila, movido := Pulsar(col, fila, tecla);
          if movido && Punto(col, fila) == salida {
            fin, posicion := Llegada, Punto(col, fila);
            return;
          }
      }
      i := i + 1;
    }
    fin, posicion := EnJuego, Punto(col, fila);
  }
}
