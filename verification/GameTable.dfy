/** The dictionary of running games: one engine for each room, in the order in which they were set up. */
module GameTable {
  import opened Basics
  import opened Play
  import opened Rooms
  import Adapter
  import BoardText
  import Engine
  import GameServer
  import Openings

  lemma ListsOneMore(q: seq<RoomId>, s: set<RoomId>, r: RoomId)
    requires Lists(q, s) && r !in s
    ensures Lists(q + [r], s + {r})
  {
  }

  /** No two of the engines share an object, and all their objects are in the set. */
  ghost predicate Separate(engines: map<RoomId, Adapter.KungFuEngineAdapter>, all: set<object>)
    reads all
  {
    && (forall o | o in all :: Adapter.OfGame(o))
    && (forall r | r in engines :: engines[r] in all && engines[r].Repr <= all && engines[r].Valid())
    && (forall r, s | r in engines && s in engines && r != s :: engines[r].Repr !! engines[s].Repr)
  }

  lemma SeparateAdd(engines: map<RoomId, Adapter.KungFuEngineAdapter>, all: set<object>, r: RoomId,
        e: Adapter.KungFuEngineAdapter)
    requires Separate(engines, all) && r !in engines && e.Valid() && e.Repr !! all
    ensures Separate(engines[r := e], all + e.Repr)
  {
    hide Adapter.KungFuEngineAdapter.Valid;
    e.InRepr();
  }

  /** The other games stand apart from this one, so whatever it does leaves them as they are. */
  lemma SeparateDrop(engines: map<RoomId, Adapter.KungFuEngineAdapter>, all: set<object>, r: RoomId)
    requires Separate(engines, all) && r in engines
    ensures engines[r].Valid() && engines[r].Repr <= all
    ensures Separate(engines - {r}, all - engines[r].Repr)
  {
    hide Adapter.KungFuEngineAdapter.Valid;
    forall s | s in engines ensures engines[s] in engines[s].Repr {
      engines[s].InRepr();
    }
  }

  class GameTable {
    const factory: Adapter.KungFuEngineFactory
    var engines: map<RoomId, Adapter.KungFuEngineAdapter>
    var started: seq<RoomId>
    /** The states of the games, and all the objects they consist of. */
    ghost var model: map<RoomId, Game>
    ghost var Repr: set<object>

    ghost predicate FileOk() {
      factory.Opening().Ok?
    }

    /** The board new games start from. */
    ghost function Opening(): Game
      requires FileOk()
    {
      Openings.OpeningOf(factory.Opening().value)
    }

    ghost predicate EnginesOk()
      reads this`engines, this`Repr, Repr
    {
      Separate(engines, Repr)
    }

    /** Every game agrees with the model. */
    ghost predicate Known()
      reads this`engines, this`model, this`Repr, Repr
    {
      && model.Keys == engines.Keys
      && forall r | r in engines ::
           engines[r].engine in Repr && engines[r].Model() == model[r] && Sound(model[r])
    }

    ghost predicate Valid()
      reads this, Repr
    {
      && EnginesOk() && Known() && Lists(started, engines.Keys) && FileOk() && Sound(Opening())
    }

    constructor (factory: Adapter.KungFuEngineFactory)
      requires factory.Opening().Ok?
      ensures Valid() && model == map[] && started == [] && Repr == {} && this.factory == factory
    {
      Openings.OpeningIsInitial(factory.loader.Lines());
      this.factory := factory;
      engines, started, model, Repr := map[], [], map[], {};
    }

    lemma SoundOpening()
      requires Valid()
      ensures Sound(Opening()) && !Opening().over
    {
      Openings.OpeningIsInitial(factory.loader.Lines());
    }

    lemma SoundGame(r: RoomId)
      requires Valid() && r in engines
      ensures r in model && Sound(model[r]) && engines[r].Model() == model[r] && engines[r].Valid()
    {
      hide BoardText.ParseBoard, Lists;
    }

    lemma SameKeys()
      requires Valid()
      ensures model.Keys == engines.Keys
    {
    }

    lemma OnlyGameObjects()
      requires Valid()
      ensures forall o | o in Repr :: Adapter.OfGame(o)
    {
    }

    lemma AllInRepr()
      requires EnginesOk()
      ensures forall r | r in engines :: engines[r] in engines[r].Repr && engines[r].engine in engines[r].Repr
      ensures forall r | r in engines :: engines[r].Repr <= Repr
      ensures this !in Repr
    {
      assert !Adapter.OfGame(this);
      forall r | r in engines ensures engines[r] in engines[r].Repr && engines[r].engine in engines[r].Repr {
        engines[r].InRepr();
      }
    }

    method WinnerOf(r: RoomId) returns (winner: Option<Color>)
      requires Valid() && r in engines
      ensures winner == model[r].winner
    {
      hide EnginesOk, Adapter.KungFuEngineAdapter.Valid, FileOk, Sound, Lists;
      SoundGame(r);
      winner := engines[r].Winner();
    }

    method IsOver(r: RoomId) returns (over: bool)
      requires Valid() && r in engines
      ensures over == model[r].over
    {
      hide EnginesOk, Adapter.KungFuEngineAdapter.Valid, FileOk, Sound, Lists;
      SoundGame(r);
      over := engines[r].Over();
    }

    /** The clock of one game. */
    method TickEngine(r: RoomId)
      requires EnginesOk() && r in engines
      modifies engines[r].Repr
      ensures EnginesOk() && engines[r].Model() == Tick(old(engines[r].Model()), 50)
      ensures forall s | s in engines && s != r :: engines[s].Model() == old(engines[s].Model())
      ensures Repr == old(Repr) && engines == old(engines)
    {
      hide Tick, Engine.GameEngine.Valid;
      AllInRepr();
      engines[r].UpdateGameClock(GameServer.TICK_MS);
    }

    /** The model follows a change of one game. */
    lemma StillKnown(was: map<RoomId, Game>, r: RoomId, g: Game)
      requires r in engines && was.Keys + {r} == engines.Keys
      requires model == was[r := g] && engines[r].Model() == g && Sound(g)
      requires forall s | s in engines && s != r :: engines[s].Model() == was[s] && Sound(was[s])
      requires forall s | s in engines :: engines[s].engine in Repr
      ensures Known()
    {
    }

    lemma WasKnown()
      requires Known()
      ensures model.Keys == engines.Keys
      ensures forall s | s in engines :: engines[s].Model() == model[s] && Sound(model[s])
      ensures forall s | s in engines :: engines[s].engine in Repr
    {
    }

    method TickGame(r: RoomId)
      requires Valid() && r in engines
      modifies this`model, Repr
      ensures Valid() && r in old(model) && Sound(old(model)[r])
      ensures model == old(model)[r := Tick(old(model)[r], 50)]
      ensures engines == old(engines) && started == old(started) && Repr == old(Repr)
    {
      hide Tick, Adapter.KungFuEngineAdapter.Valid, BoardText.ParseBoard, Lists, EnginesOk, Sound, Known;
      SoundGame(r);
      WasKnown();
      AllInRepr();
      TickEngine(r);
      model := model[r := engines[r].Model()];
      StillKnown(old(model), r, engines[r].Model());
    }

    method ForfeitEngine(r: RoomId, winner: Color)
      requires EnginesOk() && r in engines
      modifies engines[r].Repr
      ensures EnginesOk() && engines[r].Model() == Forfeit(old(engines[r].Model()), winner)
      ensures forall s | s in engines && s != r :: engines[s].Model() == old(engines[s].Model())
      ensures Repr == old(Repr) && engines == old(engines)
    {
      hide Forfeit, Engine.GameEngine.Valid;
      AllInRepr();
      engines[r].ForceForfeit(winner);
    }

    method ForfeitGame(r: RoomId, winner: Color)
      requires Valid() && r in engines
      modifies this`model, Repr
      ensures Valid() && r in old(model) && Sound(old(model)[r])
      ensures model == old(model)[r := Forfeit(old(model)[r], winner)]
      ensures engines == old(engines) && started == old(started) && Repr == old(Repr)
    {
      hide Forfeit, Adapter.KungFuEngineAdapter.Valid, BoardText.ParseBoard, Lists, EnginesOk, Sound, Known;
      SoundGame(r);
      WasKnown();
      AllInRepr();
      ForfeitEngine(r, winner);
      model := model[r := engines[r].Model()];
      StillKnown(old(model), r, engines[r].Model());
    }

    method MoveEngine(r: RoomId, c: Color, start: Position, end: Position) returns (reply: Adapter.Reply)
      requires EnginesOk() && r in engines
      modifies engines[r].Repr, this`Repr
      ensures EnginesOk() && engines[r].Model() == Adapter.PlayerMove(old(engines[r].Model()), c, start, end)
      ensures reply == old(Adapter.PlayerReply(engines[r].Model(), c, start, end))
      ensures forall s | s in engines && s != r :: engines[s].Model() == old(engines[s].Model())
      ensures old(Repr) <= Repr && fresh(Repr - old(Repr)) && engines == old(engines)
    {
      hide Adapter.PlayerMove, Adapter.PlayerReply, Engine.GameEngine.Valid, Sound;
      AllInRepr();
      ghost var others := Repr - engines[r].Repr;
      SeparateDrop(engines, Repr, r);
      reply := engines[r].TryPlayerMove(c, start, end);
      SeparateAdd(engines - {r}, others, r, engines[r]);
      assert (engines - {r})[r := engines[r]] == engines;
      Repr := others + engines[r].Repr;
    }

    method MoveInGame(r: RoomId, c: Color, start: Position, end: Position) returns (reply: Adapter.Reply)
      requires Valid() && r in engines
      modifies this`model, this`Repr, Repr
      ensures Valid() && r in old(model) && Sound(old(model)[r])
      ensures model == old(model)[r := Adapter.PlayerMove(old(model)[r], c, start, end)]
      ensures reply == Adapter.PlayerReply(old(model)[r], c, start, end)
      ensures engines == old(engines) && started == old(started) && fresh(Repr - old(Repr))
    {
      hide Adapter.PlayerMove, Adapter.PlayerReply, Adapter.KungFuEngineAdapter.Valid, BoardText.ParseBoard, Lists,
           EnginesOk, Sound, Known;
      SoundGame(r);
      WasKnown();
      AllInRepr();
      reply := MoveEngine(r, c, start, end);
      model := model[r := engines[r].Model()];
      StillKnown(old(model), r, engines[r].Model());
    }

    method AddEngine(r: RoomId)
      requires EnginesOk() && r !in engines && FileOk()
      modifies this`engines, this`started, this`Repr
      ensures started == old(started) + [r]
      ensures EnginesOk() && engines.Keys == old(engines.Keys) + {r} && engines[r].Model() == Opening()
      ensures forall s | s in engines && s != r ::
                engines[s] == old(engines)[s] && engines[s].Model() == old(engines[s].Model())
      ensures old(Repr) <= Repr && fresh(Repr - old(Repr)) && engines[r].engine in Repr
    {
      hide Engine.GameEngine.Valid, BoardText.ParseBoard, Openings.OpeningOf, Initial, Sound;
      AllInRepr();
      var made := factory.Create();
      var e := made.value;
      e.InRepr();
      SeparateAdd(engines, Repr, r, e);
      engines := engines[r := e];
      started := started + [r];
      Repr := Repr + e.Repr;
    }

    /** Set up a new game. */
    method Open(r: RoomId)
      requires Valid() && r !in engines
      modifies this
      ensures Valid() && model == old(model)[r := Opening()] && started == old(started) + [r]
      ensures engines.Keys == old(engines.Keys) + {r} && fresh(Repr - old(Repr))
    {
      hide Adapter.KungFuEngineAdapter.Valid, Adapter.KungFuEngineFactory.Opening, Openings.OpeningOf, Sound,
           Known, Lists;
      WasKnown();
      ListsOneMore(started, engines.Keys, r);
      AddEngine(r);
      model := model[r := engines[r].Model()];
      StillKnown(old(model), r, Opening());
    }
  }
}
