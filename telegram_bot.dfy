/** The submission conversation of telegram-bot/src/index.ts. The bot keeps
    one flow per Telegram user id in the map userFlows; each text message
    moves the user's flow one step along, and the message at the last step
    sends the collected submission and ends the flow. URL validity (the
    URL constructor), the insert into the database, the clock and the
    reply texts are outside the model: isValidUrl is a parameter, the
    insert's failure is a parameter, the timestamp is a parameter and a
    reply is named by what it asks for. */
module TelegramBot {
  import opened Strings
  import opened BotText

  datatype Step = ProductName | ProjectUrl | Description | LogoUrl | Category | Tags
                | GithubUrl | TwitterProfile | FounderName | FounderTwitter | Teammates

  /** The position of a step in the conversation. */
  function StepIndex(s: Step): (n: nat)
    ensures n <= 10
  {
    match s
    case ProductName => 0
    case ProjectUrl => 1
    case Description => 2
    case LogoUrl => 3
    case Category => 4
    case Tags => 5
    case GithubUrl => 6
    case TwitterProfile => 7
    case FounderName => 8
    case FounderTwitter => 9
    case Teammates => 10
  }

  /** Partial<SubmissionState>: None is a field not yet set; for the
      nullable fields None also stands for null. */
  datatype Draft = Draft(
    productName: Option<string>,
    projectUrl: Option<string>,
    description: Option<string>,
    logoUrl: Option<string>,
    category: Option<string>,
    tags: Option<seq<string>>,
    githubUrl: Option<string>,
    twitterProfile: Option<string>,
    founderName: Option<string>,
    founderTwitter: Option<string>,
    teammates: Option<seq<Teammate>>)

  const EmptyDraft := Draft(None, None, None, None, None, None, None, None, None, None, None)

  datatype UserFlow = UserFlow(step: Step, state: Draft)

  const NewFlow := UserFlow(ProductName, EmptyDraft)

  /** The message the bot answers with. */
  datatype Reply =
    | NoReply | AskProjectUrl | InvalidProjectUrl | AskDescription | AskLogo | InvalidLogo
    | AskCategory | InvalidCategory | AskTags | AskGithub | InvalidGithub | AskTwitterProfile
    | AskFounderName | AskFounderTwitter | AskTeammates | SaveFailed | Received

  datatype Outcome = Outcome(flow: UserFlow, reply: Reply)

  /** One text message (already trimmed and non-empty) at the flow's step:
      the step's answer stored and the next step, or the flow unchanged
      with a request to answer again. Before the last step a message moves
      the flow to the very next step or, at a step that checks its answer,
      leaves flow and answers unchanged; at the last step the flow stays
      there and the answers are received. */
  function Next(flow: UserFlow, text: string, isValidUrl: string -> bool): (o: Outcome)
    ensures flow.step != Teammates ==>
      || StepIndex(o.flow.step) == StepIndex(flow.step) + 1
      || (CanRefuse(flow.step) && o.flow == flow)
    ensures flow.step == Teammates ==> o.flow.step == Teammates && o.reply == Received
  {
    var st := flow.state;
    match flow.step
    case ProductName => Outcome(UserFlow(ProjectUrl, st.(productName := Some(text))), AskProjectUrl)
    case ProjectUrl =>
      if !isValidUrl(text) then Outcome(flow, InvalidProjectUrl)
      else Outcome(UserFlow(Description, st.(projectUrl := Some(text))), AskDescription)
    case Description => Outcome(UserFlow(LogoUrl, st.(description := Some(text))), AskLogo)
    case LogoUrl =>
      if IsSkip(text) then Outcome(UserFlow(Category, st.(logoUrl := None)), AskCategory)
      else if isValidUrl(text) then Outcome(UserFlow(Category, st.(logoUrl := Some(text))), AskCategory)
      else Outcome(flow, InvalidLogo)
    case Category =>
      var m := CategoryOf(text);
      if m.None? then Outcome(flow, InvalidCategory)
      else Outcome(UserFlow(Tags, st.(category := m)), AskTags)
    case Tags =>
      Outcome(UserFlow(GithubUrl, st.(tags := Some(if IsSkip(text) then [] else TagList(text)))), AskGithub)
    case GithubUrl =>
      if IsSkip(text) then Outcome(UserFlow(TwitterProfile, st.(githubUrl := None)), AskTwitterProfile)
      else if isValidUrl(text) then Outcome(UserFlow(TwitterProfile, st.(githubUrl := Some(text))), AskTwitterProfile)
      else Outcome(flow, InvalidGithub)
    case TwitterProfile =>
      Outcome(UserFlow(FounderName, st.(twitterProfile := if IsSkip(text) then None else Some(TwitterProfileAnswer(text)))),
              AskFounderName)
    case FounderName => Outcome(UserFlow(FounderTwitter, st.(founderName := Some(text))), AskFounderTwitter)
    case FounderTwitter => Outcome(UserFlow(Teammates, st.(founderTwitter := Some(NormalizeTwitter(text)))), AskTeammates)
    case Teammates =>
      Outcome(UserFlow(Teammates, st.(teammates := Some(if IsSkip(text) then [] else ParsedTeammates(text)))), Received)
  }

  /** The steps whose answer can be refused. */
  predicate CanRefuse(s: Step) {
    s == ProjectUrl || s == LogoUrl || s == Category || s == GithubUrl
  }

  /** The project link must be a valid URL. */
  lemma ProjectUrlChecked(flow: UserFlow, text: string, isValidUrl: string -> bool)
    requires flow.step == ProjectUrl
    ensures var o := Next(flow, text, isValidUrl);
      && (!isValidUrl(text) ==> o.flow == flow)
      && (isValidUrl(text) ==> o.flow.step == Description && o.flow.state.projectUrl == Some(text))
  {
  }

  /** Logo and GitHub answers: "/skip" in any case stores null, a valid
      URL is stored, anything else is asked again. */
  lemma OptionalUrlSteps(flow: UserFlow, text: string, isValidUrl: string -> bool)
    requires flow.step == LogoUrl || flow.step == GithubUrl
    ensures var o := Next(flow, text, isValidUrl);
      var stored := if flow.step == LogoUrl then o.flow.state.logoUrl else o.flow.state.githubUrl;
      && (IsSkip(text) ==> o.flow.step != flow.step && stored == None)
      && (!IsSkip(text) && isValidUrl(text) ==> o.flow.step != flow.step && stored == Some(text))
      && (!IsSkip(text) && !isValidUrl(text) ==> o.flow == flow)
  {
  }

  /** A category is accepted only when it names one of MAIN_CATEGORIES in
      some case, and the canonical spelling is stored. */
  lemma CategoryChecked(flow: UserFlow, text: string, isValidUrl: string -> bool)
    requires flow.step == Category
    ensures var o := Next(flow, text, isValidUrl);
      && (o.flow != flow <==> exists i | 0 <= i < |MainCategories| :: Lower(MainCategories[i]) == Lower(Trim(text)))
      && (o.flow != flow ==> o.flow.state.category.Some? && o.flow.state.category.value in MainCategories &&
                             Lower(o.flow.state.category.value) == Lower(Trim(text)))
  {
    if CategoryOf(text).Some? {
      assert Next(flow, text, isValidUrl).flow.step == Tags;
    }
  }

  /** The answers the submission needs are present once the flow has
      passed their steps. */
  predicate Answered(flow: UserFlow) {
    var i := StepIndex(flow.step);
    var st := flow.state;
    && (i > 0 ==> st.productName.Some?)
    && (i > 1 ==> st.projectUrl.Some?)
    && (i > 2 ==> st.description.Some?)
    && (i > 4 ==> st.category.Some?)
    && (i > 5 ==> st.tags.Some?)
    && (i > 8 ==> st.founderName.Some?)
    && (i > 9 ==> st.founderTwitter.Some?)
  }

  lemma NextKeepsFilled(flow: UserFlow, text: string, isValidUrl: string -> bool)
    requires Answered(flow)
    ensures Answered(Next(flow, text, isValidUrl).flow)
  {
  }

  datatype Status = Pending | Approved | Rejected

  /** The payload of insertSubmission. */
  datatype Submission = Submission(
    productName: string,
    projectUrl: string,
    description: string,
    logoUrl: Option<string>,
    category: Option<string>,
    tags: seq<string>,
    githubUrl: Option<string>,
    twitterProfile: Option<string>,
    founderName: string,
    founderTwitter: string,
    teammates: seq<Teammate>,
    batch: Option<string>,
    status: Status,
    telegramUserId: int,
    telegramUsername: Option<string>,
    createdAt: string)

  /** The submission built from the collected answers. A required answer
      that is missing (which Answered rules out) is modelled as "". */
  function SubmissionOf(st: Draft, userId: int, username: Option<string>, now: string): (r: Submission)
    ensures r.status == Pending && r.batch == None
    ensures r.telegramUserId == userId && r.telegramUsername == username
  {
    Submission(st.productName.GetOr(""), st.projectUrl.GetOr(""), st.description.GetOr(""),
      st.logoUrl, st.category, st.tags.GetOr([]), st.githubUrl, st.twitterProfile,
      st.founderName.GetOr(""), st.founderTwitter.GetOr(""), st.teammates.GetOr([]),
      None, Pending, userId, username, now)
  }

  /** A flow that reached the teammates step sends every answer it
      collected. */
  lemma SubmissionCarriesAnswers(flow: UserFlow, text: string, isValidUrl: string -> bool, userId: int,
                                 username: Option<string>, now: string)
    requires Answered(flow) && flow.step == Teammates
    ensures var st := Next(flow, text, isValidUrl).flow.state;
      var s := SubmissionOf(st, userId, username, now);
      && Some(s.productName) == flow.state.productName && Some(s.projectUrl) == flow.state.projectUrl
      && Some(s.description) == flow.state.description && s.category == flow.state.category
      && Some(s.founderName) == flow.state.founderName && Some(s.founderTwitter) == flow.state.founderTwitter
      && s.teammates == (if IsSkip(text) then [] else ParsedTeammates(text))
  {
  }

  /** `!userId`: an absent id or 0. */
  predicate NoUser(userId: Option<int>) {
    userId.None? || userId.value == 0
  }

  class Bot {
    var userFlows: map<int, UserFlow>

    /** Every stored flow holds the answers of the steps it has passed. */
    predicate Valid()
      reads this
    {
      forall id | id in userFlows :: Answered(userFlows[id])
    }

    constructor()
      ensures Valid() && userFlows == map[]
    {
      userFlows := map[];
    }

    /** getOrCreateFlow: an existing flow is kept as it is. */
    method GetOrCreateFlow(userId: int) returns (flow: UserFlow)
      requires Valid()
      modifies this
      ensures Valid()
      ensures userId in old(userFlows) ==> flow == old(userFlows)[userId] && userFlows == old(userFlows)
      ensures userId !in old(userFlows) ==> flow == NewFlow && userFlows == old(userFlows)[userId := NewFlow]
    {
      if userId in userFlows {
        flow := userFlows[userId];
      } else {
        flow := NewFlow;
        userFlows := userFlows[userId := flow];
      }
    }

    /** clearFlow. */
    method ClearFlow(userId: int)
      requires Valid()
      modifies this
      ensures Valid()
      ensures userFlows == old(userFlows) - {userId}
    {
      userFlows := userFlows - {userId};
    }

    /** /start and /submit: a flow is started unless one is under way. */
    method Start(fromId: Option<int>)
      requires Valid()
      modifies this
      ensures Valid()
      ensures NoUser(fromId) ==> userFlows == old(userFlows)
      ensures !NoUser(fromId) ==> (fromId.value in userFlows &&
        userFlows == (if fromId.value in old(userFlows) then old(userFlows) else old(userFlows)[fromId.value := NewFlow]))
    {
      if !NoUser(fromId) {
        var _ := GetOrCreateFlow(fromId.value);
      }
    }

    /** /cancel. */
    method Cancel(userId: Option<int>)
      requires Valid()
      modifies this
      ensures Valid()
      ensures NoUser(userId) ==> userFlows == old(userFlows)
      ensures !NoUser(userId) ==> userFlows == old(userFlows) - {userId.value}
    {
      if !NoUser(userId) {
        ClearFlow(userId.value);
      }
    }

    /** The text handler. A message from no user, from a user without a
        flow, or with blank text is ignored. At the teammates step the
        submission goes out and the flow ends whether or not the insert
        fails. */
    method OnText(userId: Option<int>, username: Option<string>, message: Option<string>,
                  isValidUrl: string -> bool, now: string, insertFails: bool)
      returns (sent: Option<Submission>, reply: Reply)
      requires Valid()
      modifies this
      ensures Valid()
      ensures sent.Some? ==> (!NoUser(userId) && userId.value in old(userFlows) &&
        var st := old(userFlows)[userId.value].state;
        && Some(sent.value.productName) == st.productName && Some(sent.value.projectUrl) == st.projectUrl
        && Some(sent.value.description) == st.description && sent.value.category == st.category
        && Some(sent.value.founderName) == st.founderName && Some(sent.value.founderTwitter) == st.founderTwitter)
      ensures var text := Trim(message.GetOr(""));
        NoUser(userId) || userId.value !in old(userFlows) || text == "" ==>
          userFlows == old(userFlows) && sent == None && reply == NoReply
      ensures var text := Trim(message.GetOr(""));
        !(NoUser(userId) || userId.value !in old(userFlows) || text == "") ==>
          var flow := old(userFlows)[userId.value];
          var o := Next(flow, text, isValidUrl);
          if flow.step == Teammates then
            && userFlows == old(userFlows) - {userId.value}
            && sent == Some(SubmissionOf(o.flow.state, userId.value, username, now))
            && reply == (if insertFails then SaveFailed else Received)
          else
            userFlows == old(userFlows)[userId.value := o.flow] && sent == None && reply == o.reply
    {
      sent, reply := None, NoReply;
      if NoUser(userId) || userId.value !in userFlows {
        return;
      }
      var id := userId.value;
      var flow := userFlows[id];
      var text := Trim(message.GetOr(""));
      if text == "" {
        return;
      }
      var o := Advance(flow, text, isValidUrl);
      NextKeepsFilled(flow, text, isValidUrl);
      if flow.step != Teammates {
        userFlows := userFlows[id := o.flow];
        reply := o.reply;
        return;
      }
      SubmissionCarriesAnswers(flow, text, isValidUrl, id, username, now);
      var submission := SubmissionOf(o.flow.state, id, username, now);
      sent := Some(submission);
      ClearFlow(id);
      reply := if insertFails then SaveFailed else Received;
    }
  }

  /** The chain of `if (step === ...)` blocks, updating the flow's step and
      state the way the handler assigns to them. */
  method Advance(flow: UserFlow, text: string, isValidUrl: string -> bool) returns (o: Outcome)
    ensures o == Next(flow, text, isValidUrl)
  {
    var step, state := flow.step, flow.state;
    var reply := NoReply;
    if step == ProductName {
      state := state.(productName := Some(text));
      step, reply := ProjectUrl, AskProjectUrl;
    } else if step == ProjectUrl {
      if !isValidUrl(text) {
        return Outcome(flow, InvalidProjectUrl);
      }
      state := state.(projectUrl := Some(text));
      step, reply := Description, AskDescription;
    } else if step == Description {
      state := state.(description := Some(text));
      step, reply := LogoUrl, AskLogo;
    } else if step == LogoUrl {
      if IsSkip(text) {
        state := state.(logoUrl := None);
      } else if isValidUrl(text) {
        state := state.(logoUrl := Some(text));
      } else {
        return Outcome(flow, InvalidLogo);
      }
      step, reply := Category, AskCategory;
    } else if step == Category {
      var m := CategoryOf(text);
      if m.None? {
        return Outcome(flow, InvalidCategory);
      }
      state := state.(category := m);
      step, reply := Tags, AskTags;
    } else if step == Tags {
      state := state.(tags := Some(if IsSkip(text) then [] else TagList(text)));
      step, reply := GithubUrl, AskGithub;
    } else if step == GithubUrl {
      if IsSkip(text) {
        state := state.(githubUrl := None);
      } else if isValidUrl(text) {
        state := state.(githubUrl := Some(text));
      } else {
        return Outcome(flow, InvalidGithub);
      }
      step, reply := TwitterProfile, AskTwitterProfile;
    } else if step == TwitterProfile {
      state := state.(twitterProfile := if IsSkip(text) then None else Some(TwitterProfileAnswer(text)));
      step, reply := FounderName, AskFounderName;
    } else if step == FounderName {
      state := state.(founderName := Some(text));
      step, reply := FounderTwitter, AskFounderTwitter;
    } else if step == FounderTwitter {
      state := state.(founderTwitter := Some(NormalizeTwitter(text)));
      step, reply := Teammates, AskTeammates;
    } else {
      var mates := [];
      if !IsSkip(text) {
        mates := ParseTeammates(text);
      }
      state := state.(teammates := Some(mates));
      reply := Received;
    }
    o := Outcome(UserFlow(step, state), reply);
  }
}
