/**
 * The `profile` slice of the Redux store: the user's profile fields, the
 * list of gods offered for selection and the selected god. Values are
 * JSON-like; an object is a map from field name to value, so the order of
 * its fields is not modelled.
 */
module UserSlice {

  datatype Value = Null | Str(s: string) | Bool(b: bool) | Obj(fields: map<string, Value>) | Arr(items: seq<Value>)

  type Profile = map<string, Value>

  /** One entry of the initial `gods` list, active and selected. */
  function God(id: string, name: string, desc: string): Value
  {
    Obj(map["god_id" := Str(id), "active" := Bool(true), "is_selected" := Bool(true), "name" := Str(name), "desc" := Str(desc)])
  }

  const InitialGods: seq<Value> := [
    God("7243cb4f-188c-4982-a99f-b51a60ff0eeb", "Ganesha",
        "Ganesha, the revered elephant-headed deity, removes obstacles, bestows wisdom, and represents new beginnings, success, and creative energy in every endeavor."),
    God("3a240738-c171-4ba5-928c-2b13782859e1", "Sai Baba",
        "Sai Baba, the compassionate saint, alleviates suffering, unites faiths, and inspires selfless service, spiritual guidance, and enduring hope among followers."),
    God("4d8e629c-16ff-47ce-9d9b-0615e057b2fa", "Saraswati Devi",
        "Saraswati Devi, the goddess of knowledge, dissolves ignorance, nurtures creativity, and imparts wisdom, art, and eloquent communication for transformative growth.")
  ]

  const InitialState: Profile := map[
    "id" := Null, "name" := Str(""), "email" := Str(""), "role" := Str(""), "profilePicture" := Str(""),
    "preferences" := Obj(map[]), "gods" := Arr(InitialGods), "activeGodId" := Arr([])
  ]

  /** A god entry that is both active and selected. */
  predicate ActiveAndSelected(g: Value)
  {
    g.Obj? && "active" in g.fields && "is_selected" in g.fields
    && g.fields["active"] == Bool(true) && g.fields["is_selected"] == Bool(true)
  }

  function GodId(g: Value): Value
  {
    if g.Obj? && "god_id" in g.fields then g.fields["god_id"] else Null
  }

  lemma GodFacts(id: string, name: string, desc: string)
    ensures ActiveAndSelected(God(id, name, desc)) && GodId(God(id, name, desc)) == Str(id)
  {
  }

  /** The three initial gods are all active and selected and have distinct ids. */
  lemma InitialGodsFacts()
    ensures |InitialGods| == 3
    ensures forall k :: 0 <= k < |InitialGods| ==> ActiveAndSelected(InitialGods[k])
    ensures forall k, m :: 0 <= k < m < |InitialGods| ==> GodId(InitialGods[k]) != GodId(InitialGods[m])
  {
    var a, b, c := "7243cb4f-188c-4982-a99f-b51a60ff0eeb", "3a240738-c171-4ba5-928c-2b13782859e1",
                   "4d8e629c-16ff-47ce-9d9b-0615e057b2fa";
    GodFacts(a, "Ganesha", InitialGods[0].fields["desc"].s);
    GodFacts(b, "Sai Baba", InitialGods[1].fields["desc"].s);
    GodFacts(c, "Saraswati Devi", InitialGods[2].fields["desc"].s);
    assert a[0] != b[0] && a[0] != c[0] && b[0] != c[0];
  }

  /** The initial profile is empty, offers the three initial gods and has no god chosen. */
  lemma InitialStateFacts()
    ensures "gods" in InitialState && InitialState["gods"] == Arr(InitialGods)
    ensures InitialState["activeGodId"] == Arr([]) && InitialState["id"] == Null
    ensures InitialState["name"] == Str("") && InitialState["email"] == Str("") && InitialState["role"] == Str("")
  {
  }

  /** `setUserProfile`: `{ ...state, ...payload }`, a shallow merge in which the payload wins. */
  function SetUserProfile(state: Profile, payload: Profile): (r: Profile)
    ensures r.Keys == state.Keys + payload.Keys
    ensures forall k :: k in payload ==> r[k] == payload[k]
    ensures forall k :: k in state && k !in payload ==> r[k] == state[k]
  {
    state + payload
  }

  /** Merging the same payload twice is merging it once, and an empty payload changes nothing. */
  lemma SetUserProfileIdempotent(state: Profile, payload: Profile)
    ensures SetUserProfile(SetUserProfile(state, payload), payload) == SetUserProfile(state, payload)
    ensures SetUserProfile(state, map[]) == state
  {
    assert SetUserProfile(state, map[]) == state by {
      assert SetUserProfile(state, map[]).Keys == state.Keys;
    }
  }

  /** Two merges in a row are one merge of the combined payloads, the later one winning. */
  lemma SetUserProfileTwice(state: Profile, p: Profile, q: Profile)
    ensures SetUserProfile(SetUserProfile(state, p), q) == SetUserProfile(state, SetUserProfile(p, q))
  {
  }

  /** `clearUserProfile`: the initial state, whatever the state was. */
  function ClearUserProfile(state: Profile): Profile
  {
    InitialState
  }

  /** Clearing forgets everything: any two states clear to the same profile, which has its
      fields empty again and no god chosen, even after any merge. */
  lemma ClearForgetsEverything(s: Profile, t: Profile, payload: Profile)
    ensures ClearUserProfile(s) == ClearUserProfile(t) == ClearUserProfile(SetUserProfile(s, payload))
    ensures ClearUserProfile(s)["activeGodId"] == Arr([]) && ClearUserProfile(s)["name"] == Str("")
  {
    InitialStateFacts();
  }

  /** The reducers that assign into the draft state. */
  class ProfileStore {
    var state: Profile

    constructor ()
      ensures state == InitialState
    {
      state := InitialState;
    }

    method SetProfile(payload: Profile)
      modifies this
      ensures state == SetUserProfile(old(state), payload)
    {
      state := SetUserProfile(state, payload);
    }

    /** `updateProfileField({ field, value })`: exactly the named field changes or is added. */
    method UpdateProfileField(field: string, value: Value)
      modifies this
      ensures state == old(state)[field := value]
    {
      state := state[field := value];
    }

    method ClearProfile()
      modifies this
      ensures state == InitialState
    {
      state := ClearUserProfile(state);
    }

    /** `setGods(payload)`: only `gods` changes. */
    method SetGods(payload: Value)
      modifies this
      ensures state == old(state)["gods" := payload]
    {
      state := state["gods" := payload];
    }

    /** `setActiveGod(payload)`: only `activeGodId` changes; `null` selects no god. */
    method SetActiveGod(payload: Value)
      modifies this
      ensures state == old(state)["activeGodId" := payload]
    {
      state := state["activeGodId" := payload];
    }
  }

  /** Updating a field is a merge of a one-field payload, and leaves every other field alone. */
  lemma UpdateIsMerge(state: Profile, field: string, value: Value, other: string)
    ensures state[field := value] == SetUserProfile(state, map[field := value])
    ensures other != field && other in state ==> state[field := value][other] == state[other]
  {
  }
}
