/** One visitor's session, as a value and as the object a request works on.  Time is in milliseconds. */
module Sessions {
  import opened Jobs

  type Sid = string
  type Data = map<string, string>

  const USER_ID_KEY := "auth_user_id"
  const SECOND := 1_000
  const MINUTE := 60_000
  const HOUR := 3_600_000

  datatype State = State(id: Sid, data: Data, expiresAt: int, dirty: bool, unsaved: bool)

  function Lookup(data: Data, key: string): string {
    if key in data then data[key] else ""
  }

  /** Whose session it is; "" when it identifies nobody. */
  function UserOf(data: Data): string { Lookup(data, USER_ID_KEY) }

  function Created(id: Sid, lifetime: int, now: int): State {
    State(id, map[], now + lifetime, false, true)
  }

  datatype Op =
    | Put(key: string, value: string)
    | Forget(key: string)
    | Clear
    | Regenerate(id: Sid)
    | Invalidate(id: Sid)
    | Touch

  function Renamed(s: State, id: Sid): State { s.(id := id, unsaved := true, dirty := true) }

  function Touched(s: State, lifetime: int, now: int): State {
    if now + lifetime - s.expiresAt > MINUTE then s.(expiresAt := now + lifetime, dirty := true) else s
  }

  function Apply(s: State, op: Op, lifetime: int, now: int): State {
    match op
    case Put(key, value) =>
      if key in s.data && s.data[key] == value then s else s.(data := s.data[key := value], dirty := true)
    case Forget(key) => if key in s.data then s.(data := Without(s.data, key), dirty := true) else s
    case Clear => if s.data == map[] then s else s.(data := map[], dirty := true)
    case Regenerate(id) => Renamed(s, id)
    case Invalidate(id) => Renamed(s.(data := map[]), id)
    case Touch => Touched(s, lifetime, now)
  }

  /** Whatever a handler does to a session, it never shortens its life, and never gives it more than one lifetime. */
  lemma ApplyExpiry(s: State, op: Op, lifetime: int, now: int)
    requires s.expiresAt <= now + lifetime
    ensures s.expiresAt <= Apply(s, op, lifetime, now).expiresAt <= now + lifetime
    ensures Apply(s, op, lifetime, now) == s || Apply(s, op, lifetime, now).dirty
  {
  }

  class Session {
    var ID: Sid
    var Data: Data
    var ExpiresAt: int
    var dirty: bool
    var unsaved: bool

    ghost function Now(): State
      reads this
    {
      State(ID, Data, ExpiresAt, dirty, unsaved)
    }

    constructor New(id: Sid, lifetime: int, now: int)
      ensures Now() == Created(id, lifetime, now)
    {
      ID, Data, ExpiresAt, dirty, unsaved := id, map[], now + lifetime, false, true;
    }

    constructor From(s: State)
      ensures Now() == s
    {
      ID, Data, ExpiresAt, dirty, unsaved := s.id, s.data, s.expiresAt, s.dirty, s.unsaved;
    }

    method PutValue(key: string, value: string)
      modifies this
      ensures Now() == Apply(old(Now()), Put(key, value), 0, 0)
    {
      if key in Data && Data[key] == value {
        return;
      }
      Data := Data[key := value];
      dirty := true;
    }

    method ForgetKey(key: string)
      modifies this
      ensures Now() == Apply(old(Now()), Forget(key), 0, 0)
    {
      if key !in Data {
        return;
      }
      Data := Without(Data, key);
      dirty := true;
    }

    method ClearAll()
      modifies this
      ensures Now() == Apply(old(Now()), Clear, 0, 0)
    {
      if |Data| == 0 {
        return;
      }
      Data := map[];
      dirty := true;
    }

    method RegenerateAs(id: Sid)
      modifies this
      ensures Now() == Apply(old(Now()), Regenerate(id), 0, 0)
    {
      ID := id;
      unsaved := true;
      dirty := true;
    }

    method InvalidateAs(id: Sid)
      modifies this
      ensures Now() == Apply(old(Now()), Invalidate(id), 0, 0)
    {
      Data := map[];
      RegenerateAs(id);
    }

    method TouchAt(lifetime: int, now: int)
      modifies this
      ensures Now() == Apply(old(Now()), Touch, lifetime, now)
    {
      var next := now + lifetime;
      if next - ExpiresAt > MINUTE {
        ExpiresAt := next;
        dirty := true;
      }
    }
  }
}
