/** The admin dashboard: the moderation queue, the notification fan-out, the name under
    which a hero-video file is stored, the hero-video form, support replies and the
    headline statistics. */
module AdminDashboard {
  import opened Seqs
  import Text
  import opened Catalog
  import opened Auth
  import FileUpload

  /** `pendingProducts`. */
  function PendingProducts(products: seq<Product>): (r: seq<Product>)
    ensures forall p :: p in r <==> p in products && p.status == "pending"
    ensures forall p :: multiset(r)[p] == if p.status == "pending" then multiset(products)[p] else 0
    ensures IsSubsequence(r, products)
  {
    FilterIsSubsequence(products, (p: Product) => p.status == "pending");
    Filter(products, (p: Product) => p.status == "pending")
  }

  datatype Action = Approve | Reject

  /** The buttons of a product row: only a pending product can be approved or rejected. */
  function RowActions(p: Product): (r: seq<Action>)
    ensures r != [] <==> p.status == "pending"
    ensures r != [] ==> r == [Approve, Reject]
  {
    if p.status == "pending" then [Approve, Reject] else []
  }

  /** Every product of the moderation queue offers both actions, and no other product any. */
  lemma ActionsExactlyOnQueue(products: seq<Product>, p: Product)
    requires p in products
    ensures RowActions(p) == [Approve, Reject] <==> p in PendingProducts(products)
    ensures RowActions(p) == [] <==> p !in PendingProducts(products)
  {
  }

  datatype Audience = Everyone | Buyers | Sellers

  /** The role filter of the profile query: none for everyone. */
  function TargetRole(a: Audience): (r: Option<Role>)
    ensures r == None <==> a == Everyone
    ensures a == Buyers ==> r == Some(Buyer)
    ensures a == Sellers ==> r == Some(Seller)
  {
    match a
    case Everyone => None
    case Buyers => Some(Buyer)
    case Sellers => Some(Seller)
  }

  /** A profile as the role-filtered query sees it. */
  datatype ProfileRef = ProfileRef(id: string, role: Role)

  /** The profiles the query selects from the table: all of them, or those of the role. */
  function Selected(profiles: seq<ProfileRef>, a: Audience): (r: seq<ProfileRef>)
    ensures forall p :: p in r <==> p in profiles && (a == Everyone || Some(p.role) == TargetRole(a))
    ensures forall p :: (multiset(r)[p] ==
      if a == Everyone || Some(p.role) == TargetRole(a) then multiset(profiles)[p] else 0)
    ensures IsSubsequence(r, profiles)
  {
    FilterIsSubsequence(profiles, (p: ProfileRef) => TargetRole(a).None? || TargetRole(a) == Some(p.role));
    Filter(profiles, (p: ProfileRef) => TargetRole(a).None? || TargetRole(a) == Some(p.role))
  }

  /** `data?.map(p => p.id) || []`: no rows at all when the query gives no data. */
  function TargetIds(data: Option<seq<ProfileRef>>): (r: seq<string>)
    ensures data.None? ==> r == []
    ensures data.Some? ==> |r| == |data.value| && forall i :: 0 <= i < |r| ==> r[i] == data.value[i].id
  {
    if data.None? then []
    else seq(|data.value|, i requires 0 <= i < |data.value| => data.value[i].id)
  }

  datatype NotificationKind = OrderNote | DeliveryNote | SystemNote | ChatNote | PromotionNote

  datatype NotificationForm = NotificationForm(kind: NotificationKind, title: string, message: string, audience: Audience)

  const NotificationFormDefaults: NotificationForm := NotificationForm(SystemNote, "", "", Everyone)

  /** A `notifications` row; `data` is `{ sent_by, timestamp }`. */
  datatype Notification = Notification(
    userId: string, kind: NotificationKind, title: string, message: string, sentBy: string, timestamp: string)

  /** One notification per target id, in the same order. The clock is read once per row,
      so `stamps[i]` is the ISO time at which row `i` was built. */
  function BuildNotifications(ids: seq<string>, form: NotificationForm, stamps: seq<string>): (r: seq<Notification>)
    requires |stamps| == |ids|
    ensures |r| == |ids|
    ensures forall i :: 0 <= i < |r| ==>
      (r[i].userId == ids[i] && r[i].kind == form.kind
       && r[i].title == form.title && r[i].message == form.message
       && r[i].sentBy == "admin" && r[i].timestamp == stamps[i])
  {
    seq(|ids|, i requires 0 <= i < |ids| => Notification(ids[i], form.kind, form.title, form.message, "admin", stamps[i]))
  }

  /** Recipients of the fan-out are the selected profiles, position by position, so a
      profile the query lists twice gets two rows; every profile of the audience gets one. */
  lemma NotificationsReachSelected(profiles: seq<ProfileRef>, form: NotificationForm, stamps: seq<string>)
    requires |stamps| == |Selected(profiles, form.audience)|
    ensures var sel := Selected(profiles, form.audience);
      var ns := BuildNotifications(TargetIds(Some(sel)), form, stamps);
      |ns| == |sel| && (forall i :: 0 <= i < |ns| ==> ns[i].userId == sel[i].id)
      && forall p :: p in profiles && (form.audience == Everyone || Some(p.role) == TargetRole(form.audience)) ==>
           exists i :: 0 <= i < |ns| && ns[i].userId == p.id
  {
    var sel := Selected(profiles, form.audience);
    var ns := BuildNotifications(TargetIds(Some(sel)), form, stamps);
    forall p | p in profiles && (form.audience == Everyone || Some(p.role) == TargetRole(form.audience))
      ensures exists i :: 0 <= i < |ns| && ns[i].userId == p.id
    {
      var i :| 0 <= i < |sel| && sel[i] == p;
      assert ns[i].userId == p.id;
    }
  }

  /** The object name of `uploadToStorage`: `prefix_now.ext`, where `ext` is the text after
      the last dot of the original name, or the whole name when it has no dot. */
  function UploadFileName(prefix: string, now: nat, name: string): (r: string)
    ensures r == prefix + "_" + Text.Decimal(now) + "." + Text.LastPiece(name, '.')
    ensures Text.LastPiece(r, '.') == Text.LastPiece(name, '.')
    ensures '.' !in name ==> r == prefix + "_" + Text.Decimal(now) + "." + name
    ensures '.' in name ==> exists front :: name == front + "." + Text.LastPiece(r, '.')
  {
    var ext := Text.LastPiece(name, '.');
    Text.LastPieceSuffix(name, '.');
    LastPieceAfterSeparator(prefix + "_" + Text.Decimal(now), ext, '.');
    Text.SplitNoSeparator(ext, '.');
    prefix + "_" + Text.Decimal(now) + "." + ext
  }

  /** The last piece of `a + [sep] + b` is the last piece of `b`. */
  lemma {:induction false} LastPieceAfterSeparator(a: string, b: string, sep: char)
    ensures Text.LastPiece(a + [sep] + b, sep) == Text.LastPiece(b, sep)
  {
    var s := a + [sep] + b;
    if a == [] {
      assert s[1..] == b;
    } else {
      assert s[1..] == a[1..] + [sep] + b;
      LastPieceAfterSeparator(a[1..], b, sep);
      if s[0] != sep {
        var rest := Text.Split(s[1..], sep);
        assert sep in s[1..] by {
          assert s[1..][|a| - 1] == sep;
        }
        Text.SplitSinglePiece(s[1..], sep);
        assert |rest| >= 2;
        assert Text.Split(s, sep)[|Text.Split(s, sep)| - 1] == rest[|rest| - 1];
      }
    }
  }

  /** A hero video as stored. */
  datatype HeroVideo = HeroVideo(
    id: string, title: string, description: string, videoUrl: string, thumbnailUrl: string,
    makerName: string, location: string, isActive: bool, orderIndex: int)

  /** The hero-video form: the eight editable fields. */
  datatype VideoForm = VideoForm(
    title: string, description: string, videoUrl: string, thumbnailUrl: string,
    makerName: string, location: string, isActive: bool, orderIndex: int)

  const EmptyVideoForm: VideoForm := VideoForm("", "", "", "", "", "", true, 1)

  /** `handleEditVideo`: the form takes all eight fields of the video. */
  function EditForm(v: HeroVideo): (f: VideoForm)
    ensures f.title == v.title && f.description == v.description && f.videoUrl == v.videoUrl
    ensures f.thumbnailUrl == v.thumbnailUrl && f.makerName == v.makerName && f.location == v.location
    ensures f.isActive == v.isActive && f.orderIndex == v.orderIndex
  {
    VideoForm(v.title, v.description, v.videoUrl, v.thumbnailUrl, v.makerName, v.location, v.isActive, v.orderIndex)
  }

  /** `formToSave`: the form with the URLs of the files just uploaded, if any. */
  function FormToSave(form: VideoForm, uploadedVideo: Option<string>, uploadedThumbnail: Option<string>): (f: VideoForm)
    ensures f.videoUrl == uploadedVideo.GetOr(form.videoUrl)
    ensures f.thumbnailUrl == uploadedThumbnail.GetOr(form.thumbnailUrl)
    ensures f.(videoUrl := form.videoUrl, thumbnailUrl := form.thumbnailUrl) == form
  {
    form.(videoUrl := uploadedVideo.GetOr(form.videoUrl), thumbnailUrl := uploadedThumbnail.GetOr(form.thumbnailUrl))
  }

  /** Saving an edited video without new files writes back exactly its fields. */
  lemma EditThenSaveUnchanged(v: HeroVideo)
    ensures var f := FormToSave(EditForm(v), None, None);
      HeroVideo(v.id, f.title, f.description, f.videoUrl, f.thumbnailUrl, f.makerName, f.location, f.isActive, f.orderIndex) == v
  {
  }

  /** The outcome of `uploadToStorage` for one chosen file: its public URL, or a thrown error. */
  datatype StoreResult = StoredAt(url: string) | StoreFailed

  /** Whether `handleVideoSubmit` ends in its `catch` before writing: a chosen file whose
      upload throws. */
  predicate UploadsFail(videoFile: Option<FileUpload.File>, videoStore: StoreResult,
                        thumbnailFile: Option<FileUpload.File>, thumbnailStore: StoreResult) {
    (videoFile.Some? && videoStore.StoreFailed?) || (thumbnailFile.Some? && thumbnailStore.StoreFailed?)
  }

  /** The query `handleSendNotification` sends to `profiles`: `table` is what the backend
      holds (none when it gives no data), and the answer is the audience's rows. */
  function ProfileQuery(table: Option<seq<ProfileRef>>, a: Audience): (r: Option<seq<ProfileRef>>)
    ensures r.None? <==> table.None?
    ensures r.Some? ==> forall p :: p in r.value <==> p in table.value && (a == Everyone || Some(p.role) == TargetRole(a))
    ensures r.Some? ==> r.value == Selected(table.value, a) && IsSubsequence(r.value, table.value)
  {
    if table.None? then None else Some(Selected(table.value, a))
  }

  /** A row sent to `support_messages`. */
  datatype SupportMessage = SupportMessage(ticketId: string, userId: string, message: string, isStaff: bool)

  /** Whether `handleSendSupportMessage` gets past its guard. */
  predicate SupportReplyAllowed(ticket: Option<string>, message: string)
    ensures SupportReplyAllowed(ticket, message) ==> ticket.Some? && message != []
  {
    ticket.Some? && Text.Trim(message) != ""
  }

  /** A reply is refused exactly when no ticket is selected or the message is all white space. */
  lemma SupportReplyGuard(ticket: Option<string>, message: string)
    ensures SupportReplyAllowed(ticket, message) <==> ticket.Some? && Text.HasNonSpace(message)
  {
    Text.TrimNonEmptyAll();
  }

  /** The numbers of the stat cards. */
  datatype AdminStats = AdminStats(totalProducts: nat, pendingReviews: nat, heroVideos: nat, activeCities: nat)

  function StatsOf(products: seq<Product>, videos: seq<HeroVideo>, cities: seq<DeliveryCity>): (s: AdminStats)
    ensures s.totalProducts == |products| && s.heroVideos == |videos|
    ensures s.pendingReviews == |PendingProducts(products)| <= |products|
    ensures s.activeCities == |Filter(cities, (c: DeliveryCity) => c.isActive)| <= |cities|
  {
    AdminStats(|products|, |PendingProducts(products)|, |videos|, |Filter(cities, (c: DeliveryCity) => c.isActive)|)
  }

  /** `heroVideos.slice(0, 3)`. */
  function ShownVideos(videos: seq<HeroVideo>): (r: seq<HeroVideo>)
    ensures |r| == (if |videos| < 3 then |videos| else 3)
    ensures r == videos[..|r|]
  {
    if |videos| <= 3 then videos else videos[..3]
  }

  /** The dashboard's form state. */
  class AdminPanel {
    var videoForm: VideoForm
    var editingVideo: Option<HeroVideo>
    var showVideoForm: bool
    var videoFile: Option<FileUpload.File>
    var thumbnailFile: Option<FileUpload.File>
    var videoUploading: bool
    var thumbnailUploading: bool
    var notificationForm: NotificationForm
    var showNotificationForm: bool
    var newSupportMessage: string
    var isSupportLoading: bool

    constructor ()
      ensures videoForm == EmptyVideoForm && editingVideo == None && !showVideoForm
      ensures videoFile == None && thumbnailFile == None && !videoUploading && !thumbnailUploading
      ensures notificationForm == NotificationFormDefaults && !showNotificationForm
      ensures newSupportMessage == "" && !isSupportLoading
    {
      videoForm := EmptyVideoForm;
      editingVideo := None;
      showVideoForm := false;
      videoFile := None;
      thumbnailFile := None;
      videoUploading := false;
      thumbnailUploading := false;
      notificationForm := NotificationFormDefaults;
      showNotificationForm := false;
      newSupportMessage := "";
      isSupportLoading := false;
    }

    /** `handleEditVideo`. */
    method EditVideo(v: HeroVideo)
      modifies this`videoForm, this`editingVideo, this`showVideoForm
      ensures videoForm == EditForm(v) && editingVideo == Some(v) && showVideoForm
    {
      editingVideo := Some(v);
      videoForm := EditForm(v);
      showVideoForm := true;
    }

    /** The video picker's `onFileSelect={setVideoFile}`. */
    method SelectVideoFile(f: Option<FileUpload.File>)
      modifies this`videoFile
      ensures videoFile == f
    {
      videoFile := f;
    }

    /** The thumbnail picker's `onFileSelect={setThumbnailFile}`. */
    method SelectThumbnailFile(f: Option<FileUpload.File>)
      modifies this`thumbnailFile
      ensures thumbnailFile == f
    {
      thumbnailFile := f;
    }

    /** The close and Cancel buttons: hide the form, stop editing and forget both files;
        the typed fields stay. */
    method CloseVideoForm()
      modifies this`showVideoForm, this`editingVideo, this`videoFile, this`thumbnailFile
      ensures !showVideoForm && editingVideo == None && videoFile == None && thumbnailFile == None
    {
      showVideoForm := false;
      editingVideo := None;
      videoFile := None;
      thumbnailFile := None;
    }

    /** `handleVideoSubmit`. Each chosen file is uploaded in turn, video first, under
        `UploadFileName`; `videoAt` and `thumbnailAt` are the `Date.now()` of each upload and
        `videoStore`, `thumbnailStore` the storage's answers. `objects` are the names the
        storage is asked to write, `saved` the form written and `updated` the id edited.
        An upload that throws, or a failed write, ends in the `catch`: both upload flags
        drop and the form stays. After a successful write the form, both files and the
        editing state reset. */
    method SubmitVideo(videoAt: nat, videoStore: StoreResult, thumbnailAt: nat, thumbnailStore: StoreResult, writeOk: bool)
      returns (objects: seq<string>, saved: Option<VideoForm>, updated: Option<string>)
      modifies this`videoForm, this`editingVideo, this`showVideoForm
      modifies this`videoFile, this`thumbnailFile, this`videoUploading, this`thumbnailUploading
      ensures objects ==
        (if old(videoFile).Some? then [UploadFileName("video", videoAt, old(videoFile).value.name)] else [])
        + (if old(thumbnailFile).Some? && !(old(videoFile).Some? && videoStore.StoreFailed?)
           then [UploadFileName("thumbnail", thumbnailAt, old(thumbnailFile).value.name)] else [])
      ensures UploadsFail(old(videoFile), videoStore, old(thumbnailFile), thumbnailStore) ==> saved == None
      ensures !UploadsFail(old(videoFile), videoStore, old(thumbnailFile), thumbnailStore) ==>
        saved == Some(FormToSave(old(videoForm),
                                 if old(videoFile).Some? then Some(videoStore.url) else None,
                                 if old(thumbnailFile).Some? then Some(thumbnailStore.url) else None))
        && updated == (if old(editingVideo).Some? then Some(old(editingVideo).value.id) else None)
      ensures saved.Some? && writeOk ==>
        videoForm == EmptyVideoForm && editingVideo == None && !showVideoForm
        && videoFile == None && thumbnailFile == None
        && videoUploading == (old(videoUploading) && old(videoFile).None?)
        && thumbnailUploading == (old(thumbnailUploading) && old(thumbnailFile).None?)
      ensures saved.None? || !writeOk ==>
        videoForm == old(videoForm) && editingVideo == old(editingVideo) && showVideoForm == old(showVideoForm)
        && videoFile == old(videoFile) && thumbnailFile == old(thumbnailFile)
        && !videoUploading && !thumbnailUploading
    {
      objects := [];
      saved := None;
      updated := None;
      var videoUrl := videoForm.videoUrl;
      var thumbnailUrl := videoForm.thumbnailUrl;
      if videoFile.Some? {
        videoUploading := true;
        objects := objects + [UploadFileName("video", videoAt, videoFile.value.name)];
        if videoStore.StoreFailed? {
          videoUploading := false;
          thumbnailUploading := false;
          return;
        }
        videoUrl := videoStore.url;
        videoUploading := false;
      }
      if thumbnailFile.Some? {
        thumbnailUploading := true;
        objects := objects + [UploadFileName("thumbnail", thumbnailAt, thumbnailFile.value.name)];
        if thumbnailStore.StoreFailed? {
          videoUploading := false;
          thumbnailUploading := false;
          return;
        }
        thumbnailUrl := thumbnailStore.url;
        thumbnailUploading := false;
      }
      var formToSave := videoForm.(videoUrl := videoUrl, thumbnailUrl := thumbnailUrl);
      saved := Some(formToSave);
      if editingVideo.Some? {
        updated := Some(editingVideo.value.id);
      }
      if !writeOk {
        videoUploading := false;
        thumbnailUploading := false;
        return;
      }
      videoForm := EmptyVideoForm;
      videoFile := None;
      thumbnailFile := None;
      showVideoForm := false;
      editingVideo := None;
    }

    /** `handleSendNotification`: `table` is what the `profiles` table holds, and `stamps`
        the clock readings, one per row built. `roleFilter` is the `.eq('role', …)` the
        query carries, none for everyone. The form resets only when the insert succeeds. */
    method SendNotification(table: Option<seq<ProfileRef>>, stamps: seq<string>, insertOk: bool)
      returns (roleFilter: Option<Role>, sent: seq<Notification>)
      requires |stamps| == |TargetIds(ProfileQuery(table, notificationForm.audience))|
      modifies this`notificationForm, this`showNotificationForm
      ensures roleFilter == TargetRole(old(notificationForm).audience)
      ensures sent == BuildNotifications(TargetIds(ProfileQuery(table, old(notificationForm).audience)), old(notificationForm), stamps)
      ensures insertOk ==> notificationForm == NotificationFormDefaults && !showNotificationForm
      ensures !insertOk ==> notificationForm == old(notificationForm) && showNotificationForm == old(showNotificationForm)
    {
      var targetUserIds: seq<string> := [];
      if notificationForm.audience == Everyone {
        roleFilter := None;
      } else {
        roleFilter := Some(if notificationForm.audience == Buyers then Buyer else Seller);
      }
      targetUserIds := TargetIds(ProfileQuery(table, notificationForm.audience));
      sent := BuildNotifications(targetUserIds, notificationForm, stamps);
      if insertOk {
        notificationForm := NotificationFormDefaults;
        showNotificationForm := false;
      }
    }

    /** `handleSendSupportMessage`. Past the guard the message is sent as typed, not
        trimmed. Reading the id of a missing admin, or an insert that throws, lands in the
        empty `catch` and keeps the draft; an insert that returns an error still clears it. */
    method SendSupportMessage(ticket: Option<string>, admin: Option<User>, insertThrows: bool)
      returns (sent: Option<SupportMessage>)
      modifies this`newSupportMessage, this`isSupportLoading
      ensures !SupportReplyAllowed(ticket, old(newSupportMessage)) ==>
        sent == None && newSupportMessage == old(newSupportMessage) && isSupportLoading == old(isSupportLoading)
      ensures SupportReplyAllowed(ticket, old(newSupportMessage)) ==> !isSupportLoading
      ensures sent.Some? <==> SupportReplyAllowed(ticket, old(newSupportMessage)) && admin.Some?
      ensures sent.Some? ==> sent.value == SupportMessage(ticket.value, admin.value.id, old(newSupportMessage), true)
      ensures newSupportMessage == if sent.Some? && !insertThrows then "" else old(newSupportMessage)
    {
      sent := None;
      if ticket.None? || Text.Trim(newSupportMessage) == "" {
        return;
      }
      isSupportLoading := true;
      if admin.Some? {
        sent := Some(SupportMessage(ticket.value, admin.value.id, newSupportMessage, true));
        if !insertThrows {
          newSupportMessage := "";
        }
      }
      isSupportLoading := false;
    }
  }
}
