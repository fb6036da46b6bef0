/**
 * The sidebar's chat list: chats grouped under date labels, and each item's delete, rename and
 * share actions with the notices they raise.
 */
module SidebarChats {
  import opened Wrappers
  import opened Text
  import opened Schema
  import Grouping
  import opened ConvexChat

  /** What `chatsQuery` holds: nothing while loading, then the response of `getChats`. */
  type ChatsQuery = Option<Response<seq<ChatDoc>>>

  /**
   * `groupedChats`: the listed chats grouped by their date dateLabel (computed from the creation time
   * and today's date, so a parameter here) in first-appearance order; empty while loading, on
   * failure and for no chats.
   */
  method GroupedChats(query: ChatsQuery, dateLabel: ChatDoc -> string) returns (groups: seq<Grouping.Group<ChatDoc>>)
    ensures !(query.Some? && query.value.Success?) ==> groups == []
    ensures query.Some? && query.value.Success? ==>
      && groups == Grouping.Grouped(query.value.data, dateLabel)
      && Grouping.TotalSize(groups) == |query.value.data|
      && forall c :: c in query.value.data ==> dateLabel(c) in Grouping.LabelsOf(groups)
  {
    if query.None? || (query.value.Success? && |query.value.data| == 0) {
      groups := [];
      assert query.Some? ==> Grouping.KeysOf(query.value.data, dateLabel) == [];
      return;
    }
    match query.value
    case Failure(_) =>
      groups := [];
    case Success(chats, _) =>
      groups := Grouping.GroupBy(chats, dateLabel);
      Grouping.GroupedSizesSum(chats, dateLabel);
      forall c | c in chats
        ensures dateLabel(c) in Grouping.LabelsOf(groups)
      {
        Grouping.GroupedIsPartition(chats, dateLabel, c);
      }
  }

  /** What the list area renders. */
  datatype ChatsScreen = Skeleton | Nothing | NoChatsYet | GroupList

  function ScreenOf(query: ChatsQuery): (s: ChatsScreen)
    ensures s == Skeleton <==> query.None?
    ensures s == Nothing <==> query.Some? && query.value.Failure?
    ensures s == NoChatsYet <==> query.Some? && query.value.Success? && |query.value.data| == 0
  {
    match query
    case None => Skeleton
    case Some(Failure(_)) => Nothing
    case Some(Success(chats, _)) => if |chats| == 0 then NoChatsYet else GroupList
  }

  /** Whenever the group list is shown, it holds every listed chat under some label. */
  lemma GroupListShowsEveryChat(query: ChatsQuery, dateLabel: ChatDoc -> string)
    requires ScreenOf(query) == GroupList
    ensures |Grouping.Grouped(query.value.data, dateLabel)| > 0
    ensures Grouping.TotalSize(Grouping.Grouped(query.value.data, dateLabel)) == |query.value.data|
  {
    Grouping.GroupedSizesSum(query.value.data, dateLabel);
    Grouping.GroupedIsPartition(query.value.data, dateLabel, query.value.data[0]);
  }

  const TitleMax: nat := 100

  /** `renameFormSchema`: the title as typed has 1 to 100 characters. */
  predicate ValidRenameTitle(title: string) {
    1 <= |title| <= TitleMax
  }

  /** The form checks the untrimmed title and sends the trimmed one: a blank title passes and renames the chat to "". */
  lemma BlankTitlePassesValidation()
    ensures ValidRenameTitle("   ") && Trim("   ") == ""
  {
    assert AllWhitespace("   ");
  }

  /** The sent title never exceeds the limit the form checked. */
  lemma SentTitleWithinLimit(title: string)
    requires ValidRenameTitle(title)
    ensures |Trim(title)| <= TitleMax
  {
  }

  /** `${window.location.origin}/share/${shareId}` */
  function ShareLink(origin: string, shareId: string): (link: string)
    ensures |link| == |origin| + 7 + |shareId|
    ensures link[..|origin|] == origin && link[|origin| + 7..] == shareId
  {
    origin + "/share/" + shareId
  }

  /** A notice raised by the item. */
  datatype Toast = ToastSuccess(text: string) | ToastError(text: string)

  /** How an awaited mutation ended: with its response, or by throwing. */
  datatype Outcome<+T> = Returned(value: T) | Threw

  const DeleteFailed := "Failed to delete chat. Please try again."
  const Renamed := "Chat renamed successfully!"
  const RenameFailed := "Failed to rename chat. Please try again."
  const ShareFailed := "Failed to create share link. Please try again."

  class ChatItem {
    const chatId: ChatId
    var shareLink: string
    var loading: bool
    var renameDialogOpen: bool
    var toasts: seq<Toast>
    /** The routes pushed by the item. */
    var navigations: seq<string>
    /** The `renameChat` calls made: chat id and title sent. */
    var renameCalls: seq<(ChatId, string)>

    constructor (chatId: ChatId)
      ensures this.chatId == chatId && shareLink == "Generate the link" && !loading && !renameDialogOpen
      ensures toasts == [] && navigations == [] && renameCalls == []
    {
      this.chatId := chatId;
      shareLink := "Generate the link";
      loading := false;
      renameDialogOpen := false;
      toasts := [];
      navigations := [];
      renameCalls := [];
    }

    /**
     * `handleDeleteChat`: once the mutation returns (whatever its response) the app leaves the
     * page of the deleted chat; a throw only raises a notice.
     */
    method HandleDeleteChat(routeId: Option<ChatId>, outcome: Outcome<Response<bool>>)
      modifies this
      ensures navigations == old(navigations) + (if outcome.Returned? && routeId == Some(chatId) then ["/"] else [])
      ensures toasts == old(toasts) + (if outcome.Threw? then [ToastError(DeleteFailed)] else [])
      ensures !loading
      ensures shareLink == old(shareLink) && renameDialogOpen == old(renameDialogOpen) && renameCalls == old(renameCalls)
    {
      loading := true;
      match outcome {
        case Returned(_) =>
          if routeId == Some(chatId) {
            navigations := navigations + ["/"];
          }
        case Threw =>
          toasts := toasts + [ToastError(DeleteFailed)];
      }
      loading := false;
    }

    /**
     * `onSubmit` of the rename form behind its schema: an invalid title sends nothing; otherwise the
     * trimmed title is sent, and unless the mutation throws the dialog closes with a success notice,
     * also when the response is a failure.
     */
    method SubmitRename(formTitle: string, outcome: Outcome<Response<ChatId>>)
      modifies this
      ensures !ValidRenameTitle(formTitle) ==>
        renameCalls == old(renameCalls) && toasts == old(toasts) && renameDialogOpen == old(renameDialogOpen)
      ensures ValidRenameTitle(formTitle) ==>
        && renameCalls == old(renameCalls) + [(chatId, Trim(formTitle))]
        && (outcome.Returned? ==> !renameDialogOpen && toasts == old(toasts) + [ToastSuccess(Renamed)])
        && (outcome.Threw? ==> renameDialogOpen == old(renameDialogOpen) && toasts == old(toasts) + [ToastError(RenameFailed)])
      ensures ValidRenameTitle(formTitle) ==> !loading
      ensures !ValidRenameTitle(formTitle) ==> loading == old(loading)
      ensures shareLink == old(shareLink) && navigations == old(navigations)
    {
      if !ValidRenameTitle(formTitle) {
        return;
      }
      loading := true;
      renameCalls := renameCalls + [(chatId, Trim(formTitle))];
      match outcome {
        case Returned(_) =>
          renameDialogOpen := false;
          toasts := toasts + [ToastSuccess(Renamed)];
        case Threw =>
          toasts := toasts + [ToastError(RenameFailed)];
      }
      loading := false;
    }

    /** `handleShareChat`: the link is shown only for a successful response with a non-empty share id. */
    method HandleShareChat(origin: string, outcome: Outcome<Response<ShareInfo>>)
      modifies this
      ensures var shared := outcome.Returned? && outcome.value.Success? && Truthy(outcome.value.data.shareId);
        && (shared ==> shareLink == ShareLink(origin, outcome.value.data.shareId) && toasts == old(toasts))
        && (!shared ==> shareLink == old(shareLink) && toasts == old(toasts) + [ToastError(ShareFailed)])
      ensures !loading
      ensures renameDialogOpen == old(renameDialogOpen) && navigations == old(navigations) && renameCalls == old(renameCalls)
    {
      loading := true;
      if outcome.Returned? && outcome.value.Success? && Truthy(outcome.value.data.shareId) {
        shareLink := ShareLink(origin, outcome.value.data.shareId);
      } else {
        toasts := toasts + [ToastError(ShareFailed)];
      }
      loading := false;
    }
  }

  /** The share id of a link can be read back from it. */
  lemma ShareLinkCarriesId(origin: string, a: string, b: string)
    ensures ShareLink(origin, a) == ShareLink(origin, b) <==> a == b
  {
    if ShareLink(origin, a) == ShareLink(origin, b) {
      assert a == ShareLink(origin, a)[|origin| + 7..];
    }
  }
}
