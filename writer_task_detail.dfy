/**
 * The writer's task editor: word and character counts, the review
 * templates, the mock AI generator, the activity dot colours, and the
 * handlers that save the draft, start writing and mark the task written.
 */
module WriterTaskDetail {
  import opened Seqs
  import opened Text
  import opened Types
  import opened Lookups
  import opened Store

  /* ---------------------------------------------------------------- */
  /*  wordCount, charCount                                            */
  /* ---------------------------------------------------------------- */

  /** `content.trim()`, then 0 when empty and otherwise the number of pieces
      of `split(/\s+/)`. */
  function WordCount(content: string): nat
  {
    var trimmed := Trim(content);
    if trimmed == [] then 0 else |SplitSpaces(trimmed)|
  }

  /** No content before the first word and no space run starts a word. */
  lemma {:induction false} WordStartsBlank(s: string, b: bool)
    requires IsBlank(s)
    ensures WordStarts(s, b) == 0
  {
    if s != [] {
      assert IsSpace(s[0]);
      WordStartsBlank(s[1..], IsSpace(s[0]));
    }
  }

  /** The count is the number of words: maximal runs of non-space
      characters, counting each where it starts. Blank content has none. */
  lemma WordCountCountsWords(content: string)
    ensures WordCount(content) == WordStarts(content, true)
    ensures IsBlank(content) <==> WordCount(content) == 0
  {
    TrimShape(content);
    if Trim(content) == [] {
      WordStartsBlank(content, true);
    } else {
      SplitTrimmedCountsWords(content);
    }
  }

  /** `task.wordCount && ...`: a missing or zero target shows no badge. */
  datatype TargetBadge = NoTarget | TargetMet | TargetNotMet

  function Target(words: nat, target: Option<int>): (r: TargetBadge)
    ensures r == NoTarget <==> (target.None? || target.value == 0)
    ensures r == TargetMet <==> (target.Some? && target.value != 0 && words >= target.value)
    ensures r == TargetNotMet <==> (target.Some? && target.value != 0 && words < target.value)
  {
    if target.None? || target.value == 0 then NoTarget
    else if words >= target.value then TargetMet
    else TargetNotMet
  }

  /* ---------------------------------------------------------------- */
  /*  Templates                                                       */
  /* ---------------------------------------------------------------- */

  /** The five templates the select offers. */
  datatype Template = Service | Product | LocationPraise | Staff | Value

  /** The select's value for each template. */
  function TemplateKey(t: Template): string
  {
    match t
    case Service => "service"
    case Product => "product"
    case LocationPraise => "location"
    case Staff => "staff"
    case Value => "value"
  }

  /** `templates[key]` as a template, for the five keys only. */
  function TemplateOfKey(key: string): (r: Option<Template>)
    ensures r.Some? <==> exists t :: TemplateKey(t) == key
    ensures r.Some? ==> TemplateKey(r.value) == key
  {
    if key == TemplateKey(Service) then Some(Service)
    else if key == TemplateKey(Product) then Some(Product)
    else if key == TemplateKey(LocationPraise) then Some(LocationPraise)
    else if key == TemplateKey(Staff) then Some(Staff)
    else if key == TemplateKey(Value) then Some(Value)
    else None
  }

  /** The text each template puts in the editor. */
  function TemplateBody(t: Template): string
  {
    match t
    case Service =>
      "I recently had the pleasure of experiencing their outstanding service. From the moment I walked in, the team went above and beyond to ensure every detail was taken care of. The professionalism and warmth of the staff made the entire experience exceptional. I would highly recommend them to anyone looking for top-tier service. A well-deserved five stars!"
    case Product =>
      "I have been thoroughly impressed with the quality of their products. Every item I have purchased has exceeded my expectations in terms of craftsmanship and durability. The attention to detail is remarkable, and you can tell they truly care about what they deliver. If you are looking for premium quality, look no further. Absolutely outstanding!"
    case LocationPraise =>
      "What a wonderful location! The space is beautifully maintained, clean, and welcoming. From the tasteful decor to the convenient layout, everything about this place feels thoughtfully designed. The atmosphere is warm and inviting, making every visit a pleasure. Highly recommended for anyone in the area!"
    case Staff =>
      "The staff here are truly exceptional. Every team member I interacted with was friendly, knowledgeable, and eager to help. They took the time to understand my needs and provided personalized recommendations that made all the difference. It is rare to find such genuine care and expertise. Five stars without hesitation!"
    case Value =>
      "Incredible value for the price! I was pleasantly surprised by the quality and level of service given how reasonable the pricing is. They offer a premium experience without the premium price tag. If you are looking for a place that delivers outstanding results while respecting your budget, this is the one. Highly recommend!"
  }

  /** `templates[key]`: the text of the template the key names, if any. */
  function TemplateText(key: string): Option<string>
  {
    match TemplateOfKey(key)
    case Some(t) => Some(TemplateBody(t))
    case None => None
  }

  /** The empty choice names no template (so `TemplateText("")` is none);
      each template's own key names that template. */
  lemma TemplateChoice(t: Template)
    ensures TemplateOfKey("") == None
    ensures TemplateOfKey(TemplateKey(t)) == Some(t)
  {
    KeysDistinct(t);
  }

  /** No two templates share a key, and none has the empty key. */
  lemma KeysDistinct(t: Template)
    ensures TemplateKey(t) != ""
    ensures forall u :: TemplateKey(u) == TemplateKey(t) ==> u == t
  {
    forall u | TemplateKey(u) == TemplateKey(t)
      ensures u == t
    {
      assert TemplateKey(u)[0] == TemplateKey(t)[0];
      assert TemplateKey(u)[1] == TemplateKey(t)[1];
    }
  }

  /* ---------------------------------------------------------------- */
  /*  generateAiContent                                               */
  /* ---------------------------------------------------------------- */

  /** A template with two holes: `${x}` and `${y}` between three fixed
      pieces. Both filled-in texts appear in the result. */
  function Fill(a: string, x: string, b: string, y: string, c: string): (r: string)
    ensures Contains(r, x) && Contains(r, y)
  {
    assert a + x + b + y + c == a + x + (b + y + c);
    ContainsSelf(a, x, b + y + c);
    ContainsSelf(a + x + b, y, c);
    a + x + b + y + c
  }

  /** The mock review for a platform, built around the client's and the
      location's names. */
  function GenerateAiContent(p: Platform, clientName: string, locationName: string): string
  {
    match p
    case Google =>
      Fill("I recently visited ", locationName,
        " and was thoroughly impressed with their service. The staff at ",
        clientName,
        " was incredibly professional and attentive to every detail. From the welcoming atmosphere to the exceptional quality of their work, everything exceeded my expectations. I would highly recommend them to anyone looking for a reliable and top-notch experience. Five stars all the way!")
    case Trustpilot =>
      Fill("My experience with ", clientName,
        " at their ",
        locationName,
        " location has been nothing short of excellent. I was initially hesitant, but they quickly put my concerns at ease with their transparent approach and genuine commitment to customer satisfaction. The results speak for themselves, and I have already recommended them to several friends and family members. Truly a trustworthy business that delivers on its promises.")
    case Facebook =>
      Fill("Just had an amazing experience at ", locationName,
        "! The team at ",
        clientName,
        " really knows how to make you feel valued. Everything was handled with care and professionalism from start to finish. The atmosphere was welcoming, the service was prompt, and the results were beyond what I expected. If you are in the area, definitely check them out - you will not be disappointed! Highly recommend to all my friends.")
    case Yelp =>
      Fill("Where do I even begin? ", locationName,
        " is hands down one of the best spots I have visited in a long time. The ",
        clientName,
        " team has created something truly special here. The attention to detail is remarkable, the customer service is warm and genuine, and the overall experience left me wanting to come back for more. This place deserves every bit of praise it gets. Do not miss it!")
    case TripAdvisor =>
      Fill("During my recent visit to the area, I decided to try ", locationName,
        " based on online recommendations, and I am so glad I did. ",
        clientName,
        " has built a wonderful establishment that combines quality, comfort, and excellent service. The staff was accommodating, the facilities were pristine, and every aspect of my visit was enjoyable. A must-visit destination that I will certainly return to on my next trip!")
  }

  /** Every platform has a text, and it names both the client and the
      location. */
  lemma AiContentNamesBoth(p: Platform, clientName: string, locationName: string)
    ensures var r := GenerateAiContent(p, clientName, locationName);
      Contains(r, clientName) && Contains(r, locationName)
  {
  }

  /* ---------------------------------------------------------------- */
  /*  activityDotColor                                                */
  /* ---------------------------------------------------------------- */

  datatype DotColor = Blue | Peach | Emerald | Amber | Purple | Neutral

  /** The first rule whose words the entry's text contains picks the
      colour; an entry matching none is neutral. */
  function ActivityDotColor(action: string): (r: DotColor)
    ensures r == Blue <==> Contains(action, "Started")
    ensures r == Peach <==> (!Contains(action, "Started") &&
      (Contains(action, "Written") || Contains(action, "written")))
    ensures r == Emerald <==> (!Contains(action, "Started") &&
      !Contains(action, "Written") && !Contains(action, "written") &&
      (Contains(action, "Delivered") || Contains(action, "delivered")))
    ensures r == Amber <==> (!Contains(action, "Started") &&
      !Contains(action, "Written") && !Contains(action, "written") &&
      !Contains(action, "Delivered") && !Contains(action, "delivered") &&
      (Contains(action, "Saved") || Contains(action, "draft")))
    ensures r == Purple <==> (!Contains(action, "Started") &&
      !Contains(action, "Written") && !Contains(action, "written") &&
      !Contains(action, "Delivered") && !Contains(action, "delivered") &&
      !Contains(action, "Saved") && !Contains(action, "draft") &&
      Contains(action, "Reassigned"))
    ensures r == Neutral <==> (!Contains(action, "Started") &&
      !Contains(action, "Written") && !Contains(action, "written") &&
      !Contains(action, "Delivered") && !Contains(action, "delivered") &&
      !Contains(action, "Saved") && !Contains(action, "draft") &&
      !Contains(action, "Reassigned"))
  {
    if Contains(action, "Started") then Blue
    else if Contains(action, "Written") || Contains(action, "written") then Peach
    else if Contains(action, "Delivered") || Contains(action, "delivered") then Emerald
    else if Contains(action, "Saved") || Contains(action, "draft") then Amber
    else if Contains(action, "Reassigned") then Purple
    else Neutral
  }

  /** The entry `startWriting` logs is drawn blue, whatever the task id. */
  lemma StartedEntryIsBlue(s: StoreState, id: string)
    ensures ActivityDotColor(ActionText(s, StartWriting(id))) == Blue
  {
    assert "Started writing task " + id == "" + "Started" + (" writing task " + id);
    ContainsSelf("", "Started", " writing task " + id);
  }

  /* ---------------------------------------------------------------- */
  /*  The editor                                                      */
  /* ---------------------------------------------------------------- */

  /** `tasks.find((t) => t.id === id)` */
  function FindTask(tasks: seq<Task>, id: string): (r: Option<Task>)
    ensures r.Some? ==> r.value.id == id
    ensures r.Some? ==> exists k :: (0 <= k < |tasks| && tasks[k] == r.value && forall j :: 0 <= j < k ==> tasks[j].id != id)
    ensures r.None? <==> forall i :: 0 <= i < |tasks| ==> tasks[i].id != id
  {
    Find(tasks, (t: Task) => t.id == id)
  }

  /** "Start Writing" is offered only while the task is New. */
  predicate ShowStartWriting(t: Task)
  {
    t.internalStatus == New
  }

  /** The route `handleMarkWritten` navigates to. */
  const QueueRoute := "/writer/queue"

  /** What the store holds after the two calls of `handleMarkWritten`. */
  function MarkWrittenAfter(s: StoreState, id: string, content: string, st1: Stamp, st2: Stamp): StoreState
  {
    Apply(Apply(s, SaveDraft(id, content), st1), MarkWritten(id), st2)
  }

  /** One `markWritten` on a task that has the id: its record gets the new
      status and time and the logged entry, and nothing else changes. */
  lemma MarkWrittenStep(s: StoreState, id: string, st: Stamp, i: nat)
    requires i < |s.tasks| && s.tasks[i].id == id
    ensures var r := Apply(s, MarkWritten(id), st);
      |r.tasks| == |s.tasks| &&
      r.tasks[i] == s.tasks[i].(internalStatus := InternalStatus.Written, airtableStatus := AirtableStatus.Written,
        writtenAt := Some(st.now), activity := s.tasks[i].activity + [r.globalActivity[0]]) &&
      r.globalActivity[1..] == s.globalActivity &&
      r.globalActivity[0].action == "Marked task " + id + " as written"
  {
  }

  /** Marking written from the editor saves the editor's text as the draft,
      sets the status to Written and logs two entries, the save first. */
  lemma MarkWrittenSequence(s: StoreState, id: string, content: string, st1: Stamp, st2: Stamp, i: nat)
    requires i < |s.tasks| && s.tasks[i].id == id
    ensures var r := MarkWrittenAfter(s, id, content, st1, st2);
      |r.tasks| == |s.tasks| &&
      r.tasks[i] == s.tasks[i].(contentDraft := content, internalStatus := InternalStatus.Written,
        airtableStatus := AirtableStatus.Written, writtenAt := Some(st2.now),
        activity := s.tasks[i].activity + [r.globalActivity[1], r.globalActivity[0]]) &&
      r.globalActivity[2..] == s.globalActivity &&
      r.globalActivity[1].action == "Saved draft for task " + id &&
      r.globalActivity[0].action == "Marked task " + id + " as written"
  {
    var s1 := Apply(s, SaveDraft(id, content), st1);
    SaveDraftLastWriteWins(s, id, content, content, st1, st1, i);
    ApplyLogsOneEntry(s, SaveDraft(id, content), st1);
    MarkWrittenStep(s1, id, st2, i);
    var r := Apply(s1, MarkWritten(id), st2);
    assert r.globalActivity[1] == s1.globalActivity[0];
    assert r.globalActivity[2..] == s1.globalActivity[1..];
    assert s.tasks[i].activity + [s1.globalActivity[0]] + [r.globalActivity[0]] ==
      s.tasks[i].activity + [r.globalActivity[1], r.globalActivity[0]];
  }

  /** The text AI Assist puts in the editor: the first client and location
      with the task's ids, or "this business" and "this location". */
  function AiAssistText(t: Task, clients: seq<Client>, locations: seq<Location>): string
  {
    GenerateAiContent(t.platform, OrElse(ClientFindName(clients, t.clientId), "this business"),
      OrElse(LocationFindName(locations, t.locationId), "this location"))
  }

  /** With no client or location of the task's ids the text speaks of "this
      business" at "this location"; otherwise of the first one found. */
  lemma AiAssistFallbacks(t: Task, clients: seq<Client>, locations: seq<Location>)
    ensures (forall i :: 0 <= i < |clients| ==> clients[i].id != t.clientId) ==>
      Contains(AiAssistText(t, clients, locations), "this business")
    ensures (forall i :: 0 <= i < |locations| ==> locations[i].id != t.locationId) ==>
      Contains(AiAssistText(t, clients, locations), "this location")
    ensures ClientFindName(clients, t.clientId).Some? ==>
      Contains(AiAssistText(t, clients, locations), ClientFindName(clients, t.clientId).value)
  {
    AiContentNamesBoth(t.platform, OrElse(ClientFindName(clients, t.clientId), "this business"),
      OrElse(LocationFindName(locations, t.locationId), "this location"));
  }

  class Editor {
    const store: AppStore
    var content: string
    var selectedTemplate: string

    constructor (store: AppStore)
      ensures this.store == store && content == "" && selectedTemplate == ""
    {
      this.store := store;
      content := "";
      selectedTemplate := "";
    }

    /** When the task is found, the editor starts from its saved draft. */
    method OnTaskLoaded(task: Option<Task>)
      modifies this
      ensures content == (if task.Some? then task.value.contentDraft else old(content))
      ensures selectedTemplate == old(selectedTemplate)
    {
      if task.Some? {
        content := task.value.contentDraft;
      }
    }

    /** `handleTemplateChange`: the choice is remembered; a known template
        replaces the text, anything else (the empty choice) keeps it. */
    method HandleTemplateChange(key: string)
      modifies this
      ensures selectedTemplate == key
      ensures content == (if TemplateText(key).Some? then TemplateText(key).value else old(content))
    {
      selectedTemplate := key;
      var text := TemplateText(key);
      if text.Some? {
        SetContent(text.value);
      }
    }

    /** `handleAiAssist`: the generated text for the task's platform, with
        the first client and location whose ids match, or the fallback
        names. */
    method HandleAiAssist(task: Option<Task>, clients: seq<Client>, locations: seq<Location>)
      modifies this
      ensures task.None? ==> content == old(content)
      ensures task.Some? ==> content == AiAssistText(task.value, clients, locations)
      ensures selectedTemplate == old(selectedTemplate)
    {
      if task.Some? {
        var text := AiAssistText(task.value, clients, locations);
        SetContent(text);
      }
    }

    /** `setContent` */
    method SetContent(text: string)
      modifies this
      ensures content == text && selectedTemplate == old(selectedTemplate)
    {
      content := text;
    }

    /** `handleSaveDraft` */
    method HandleSaveDraft(task: Option<Task>, st: Stamp)
      modifies store
      ensures task.None? ==> store.State() == old(store.State())
      ensures task.Some? ==> store.State() == Apply(old(store.State()), SaveDraft(task.value.id, content), st)
    {
      if task.Some? {
        var c := content;
        store.SaveDraft(task.value.id, c, st);
      }
    }

    /** `handleMarkWritten`: save the editor's text, then mark the task
        written, then go back to the queue. */
    method HandleMarkWritten(task: Option<Task>, st1: Stamp, st2: Stamp) returns (route: Option<string>)
      modifies store
      ensures task.None? ==> store.State() == old(store.State()) && route.None?
      ensures task.Some? ==>
        store.State() == MarkWrittenAfter(old(store.State()), task.value.id, content, st1, st2) &&
        route == Some(QueueRoute)
    {
      route := None;
      if task.Some? {
        var c := content;
        store.SaveDraft(task.value.id, c, st1);
        store.MarkWritten(task.value.id, st2);
        route := Some(QueueRoute);
      }
    }

    /** The header's "Start Writing" button, shown only for a New task. */
    method PressStartWriting(t: Task, st: Stamp) returns (shown: bool)
      modifies store
      ensures shown == ShowStartWriting(t)
      ensures shown ==> store.State() == Apply(old(store.State()), StartWriting(t.id), st)
      ensures !shown ==> store.State() == old(store.State())
    {
      shown := ShowStartWriting(t);
      if shown {
        store.StartWriting(t.id, st);
      }
    }
  }
}
