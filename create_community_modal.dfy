// The four-step "create a community" wizard: topic selection capped at
// five, the topic filter, step navigation, the request payload and reset.

module CreateCommunityModal {
  import opened Common

  const MaxTopics: nat := 5

  const AllTopics: seq<string> := [
    "Anime & Cosplay", "Anime", "Manga", "Art", "Performing Arts", "Architecture",
    "Design", "Filmmaking", "Digital Art", "Photography", "Business & Finance",
    "Business", "Economics", "Business News & Discussion", "Deals & Marketplace",
    "Startup & Entrepreneurial", "Real Estate", "Stocks & Investing", "Collecting & Other Hobbies",
    "Model Building", "Collectibles", "Other Hobbies", "Tags"]

  datatype FormData = FormData(
    name: string, description: string, communityType: string, isMature: bool, topics: seq<string>)

  const InitialForm: FormData := FormData("", "", "Public", false, [])

  datatype User = User(userId: Option<string>, id: Option<string>, username: string)

  /** The body sent to create the community. */
  datatype Payload = Payload(
    name: string, displayName: string, description: string, communityType: string,
    isMature: bool, topics: string, userId: Option<string>, username: string)

  /** `toggleTopic`: remove a chosen topic or append a new one, refusing a sixth. */
  function ToggleTopic(topics: seq<string>, topic: string): (r: seq<string>)
    ensures topic in topics && |Filter(topics, t => t != topic)| <= MaxTopics ==>
      r == Filter(topics, t => t != topic) && topic !in r
    ensures topic !in topics && |topics| < MaxTopics ==> r == topics + [topic]
    ensures topic !in topics && |topics| >= MaxTopics ==> r == topics
  {
    var newTopics := if topic in topics then Filter(topics, t => t != topic) else topics + [topic];
    if |newTopics| > MaxTopics then topics else newTopics
  }

  /** A selection is what the wizard can reach: at most five distinct topics. */
  predicate Selection(topics: seq<string>) {
    |topics| <= MaxTopics && Distinct(topics)
  }

  lemma {:induction false} FilterKeepsDistinct(xs: seq<string>, p: string -> bool)
    requires Distinct(xs)
    ensures Distinct(Filter(xs, p))
    decreases |xs|
  {
    if xs != [] {
      var init := xs[..|xs| - 1];
      var last := xs[|xs| - 1];
      FilterKeepsDistinct(init, p);
      assert xs == init + [last];
      assert last !in init;
      var rest := Filter(init, p);
      assert last !in rest;
    }
  }

  /** Toggling keeps a selection a selection. */
  lemma ToggleKeepsSelection(topics: seq<string>, topic: string)
    requires Selection(topics)
    ensures Selection(ToggleTopic(topics, topic))
  {
    if topic in topics {
      FilterKeepsDistinct(topics, t => t != topic);
    }
  }

  /** The topics containing the search text, ignoring case, in list order. */
  function MatchingTopics(topics: seq<string>, searchTerm: string): (r: seq<string>)
    ensures forall t :: t in r <==> t in topics && Includes(ToLower(t), ToLower(searchTerm))
    ensures |r| <= |topics|
  {
    Filter(topics, topic => Includes(ToLower(topic), ToLower(searchTerm)))
  }

  /** `filteredTopics`. */
  function FilteredTopics(searchTerm: string): seq<string> {
    MatchingTopics(AllTopics, searchTerm)
  }

  /** An empty search lists every topic in its original order. */
  lemma EmptySearchListsAll(topics: seq<string>)
    ensures MatchingTopics(topics, "") == topics
  {
    forall i | 0 <= i < |topics|
      ensures Includes(ToLower(topics[i]), ToLower(""))
    {
      IncludesEmpty(ToLower(topics[i]));
    }
  }

  /** `user.userId || user.id`. */
  function CreatorId(u: User): Option<string> {
    if Truthy(u.userId) then u.userId else u.id
  }

  function MakePayload(form: FormData, u: User): (r: Payload)
    ensures r.name == form.name && r.displayName == form.name
    ensures r.description == form.description && r.communityType == form.communityType
    ensures r.isMature == form.isMature && r.username == u.username
    ensures r.topics == Join(form.topics, ",")
    ensures Truthy(u.userId) ==> r.userId == u.userId
    ensures !Truthy(u.userId) ==> r.userId == u.id
  {
    Payload(form.name, form.name, form.description, form.communityType, form.isMature,
            Join(form.topics, ","), CreatorId(u), u.username)
  }

  /** `s.split(sep)` for a one-character separator. */
  function Split(s: string, sep: char): (r: seq<string>)
    ensures |r| >= 1
    decreases |s|
  {
    if s == [] then [""]
    else
      var rest := Split(s[..|s| - 1], sep);
      var last := s[|s| - 1];
      if last == sep then rest + [""] else rest[..|rest| - 1] + [rest[|rest| - 1] + [last]]
  }

  /** Text without the separator splits into itself; appending `sep + t` appends one piece. */
  lemma {:induction false} SplitAppend(s: string, sep: char, t: string)
    requires sep !in t
    ensures Split(t, sep) == [t]
    ensures Split(s + [sep] + t, sep) == Split(s, sep) + [t]
    decreases |t|
  {
    if t == [] {
      assert (s + [sep] + t)[..|s|] == s;
    } else {
      var init := t[..|t| - 1];
      SplitAppend(s, sep, init);
      assert t[..|t| - 1] == init && t == init + [t[|t| - 1]];
      assert (s + [sep] + t)[..|s + [sep] + t| - 1] == s + [sep] + init;
    }
  }

  /** The topics field can be split back into the chosen topics, none of which holds a comma. */
  lemma {:induction false} TopicsRoundTrip(topics: seq<string>)
    requires |topics| >= 1
    requires forall i :: 0 <= i < |topics| ==> ',' !in topics[i]
    ensures Split(Join(topics, ","), ',') == topics
    decreases |topics|
  {
    var n := |topics|;
    if n == 1 {
      SplitAppend("", ',', topics[0]);
    } else {
      var init := topics[..n - 1];
      TopicsRoundTrip(init);
      SplitAppend(Join(init, ","), ',', topics[n - 1]);
      assert Join(topics, ",") == Join(init, ",") + [','] + topics[n - 1];
      assert topics == init + [topics[n - 1]];
    }
  }

  /** The payload's topics field splits back into the form's topics. */
  lemma PayloadTopicsSplit(form: FormData, u: User)
    requires |form.topics| >= 1
    requires forall i :: 0 <= i < |form.topics| ==> ',' !in form.topics[i]
    ensures Split(MakePayload(form, u).topics, ',') == form.topics
  {
    TopicsRoundTrip(form.topics);
  }

  /** None of the offered topics holds a comma. */
  lemma TopicsHaveNoComma()
    ensures forall i :: 0 <= i < |AllTopics| ==> ',' !in AllTopics[i]
  {
    NoCommaFirstTwelve();
    NoCommaNextSix();
    NoCommaLastFive();
  }

  // The three parts of the topic list are checked separately to keep each proof small.

  lemma NoCommaFirstTwelve()
    ensures forall i :: 0 <= i < 12 ==> ',' !in AllTopics[i]
  {
  }

  lemma NoCommaNextSix()
    ensures forall i :: 12 <= i < 18 ==> ',' !in AllTopics[i]
  {
  }

  lemma NoCommaLastFive()
    ensures forall i :: 18 <= i < |AllTopics| ==> ',' !in AllTopics[i]
  {
  }

  class Modal {
    const user: Option<User>
    var step: int
    var form: FormData
    var searchTerm: string
    /** Whether `onClose` has been called. */
    var closed: bool

    /** The wizard's reachable states. */
    predicate Valid()
      reads this
    {
      1 <= step <= 4 && Selection(form.topics)
    }

    constructor (user: Option<User>)
      ensures Valid()
      ensures this.user == user && step == 1 && form == InitialForm && searchTerm == "" && !closed
    {
      this.user := user;
      step := 1;
      form := InitialForm;
      searchTerm := "";
      closed := false;
    }

    /** The Next button, offered below step 4 and disabled on step 1 while the name is blank. */
    method NextStep()
      requires Valid() && step < 4 && (step == 1 ==> !IsBlank(form.name))
      modifies this
      ensures Valid() && step == old(step) + 1
      ensures form == old(form) && searchTerm == old(searchTerm) && closed == old(closed)
    {
      step := step + 1;
    }

    /** The Back button, offered above step 1. */
    method PrevStep()
      requires Valid() && step > 1
      modifies this
      ensures Valid() && step == old(step) - 1
      ensures form == old(form) && searchTerm == old(searchTerm) && closed == old(closed)
    {
      step := step - 1;
    }

    /** `handleDataChange` for the text fields and the maturity box. */
    method ChangeName(value: string)
      requires Valid()
      modifies this
      ensures Valid() && form == old(form).(name := value)
      ensures step == old(step) && searchTerm == old(searchTerm) && closed == old(closed)
    {
      form := form.(name := value);
    }

    method ChangeDescription(value: string)
      requires Valid()
      modifies this
      ensures Valid() && form == old(form).(description := value)
      ensures step == old(step) && searchTerm == old(searchTerm) && closed == old(closed)
    {
      form := form.(description := value);
    }

    method ChangeCommunityType(value: string)
      requires Valid()
      modifies this
      ensures Valid() && form == old(form).(communityType := value)
      ensures step == old(step) && searchTerm == old(searchTerm) && closed == old(closed)
    {
      form := form.(communityType := value);
    }

    method ChangeMature(checked: bool)
      requires Valid()
      modifies this
      ensures Valid() && form == old(form).(isMature := checked)
      ensures step == old(step) && searchTerm == old(searchTerm) && closed == old(closed)
    {
      form := form.(isMature := checked);
    }

    method Search(term: string)
      requires Valid()
      modifies this
      ensures Valid() && searchTerm == term
      ensures step == old(step) && form == old(form) && closed == old(closed)
    {
      searchTerm := term;
    }

    /** A click on a topic tag. */
    method Toggle(topic: string)
      requires Valid()
      modifies this
      ensures Valid() && form == old(form).(topics := ToggleTopic(old(form.topics), topic))
      ensures step == old(step) && searchTerm == old(searchTerm) && closed == old(closed)
    {
      ToggleKeepsSelection(form.topics, topic);
      form := form.(topics := ToggleTopic(form.topics, topic));
    }

    /** `resetAndClose`: the initial form and step 1; the search text is kept. */
    method ResetAndClose()
      requires Valid()
      modifies this
      ensures Valid() && form == InitialForm && step == 1 && closed
      ensures searchTerm == old(searchTerm)
    {
      form := FormData("", "", "Public", false, []);
      step := 1;
      closed := true;
    }

    /**
     * `handleSubmit`: nothing is sent without a user, and an empty name
     * sends the wizard back to step 1. A request that succeeds resets and
     * closes the wizard; one that fails leaves it as it was.
     */
    method Submit(succeeded: bool) returns (sent: Option<Payload>)
      requires Valid()
      modifies this
      ensures Valid()
      ensures sent.Some? <==> user.Some? && old(form.name) != ""
      ensures sent.Some? ==> sent.value == MakePayload(old(form), user.value)
      ensures user.Some? && old(form.name) == "" ==> step == 1 && form == old(form) && closed == old(closed)
      ensures sent.Some? && succeeded ==> form == InitialForm && step == 1 && closed
      ensures (user.None? || (sent.Some? && !succeeded)) ==>
        form == old(form) && step == old(step) && closed == old(closed)
      ensures searchTerm == old(searchTerm)
    {
      if user.None? {
        return None;
      }
      if form.name == "" {
        step := 1;
        return None;
      }
      var u := user.value;
      sent := Some(Payload(form.name, form.name, form.description, form.communityType, form.isMature,
                           Join(form.topics, ","), if Truthy(u.userId) then u.userId else u.id, u.username));
      if succeeded {
        ResetAndClose();
      }
    }
  }
}
