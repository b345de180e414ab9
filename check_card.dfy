/**
 * The check card: the status badge and file icon lookups with their
 * fallbacks, and the text defaults for fields that may be missing.
 */
module CheckCard {
  import opened Wrappers
  import opened Js
  import opened Types

  /** The colour family of a status badge. */
  datatype Tone = Amber | Blue | Emerald | Rose

  datatype StatusStyle = StatusStyle(title: string, tone: Tone)

  /** The status table: one label and colour per status. */
  function StatusConfig(s: CheckStatus): StatusStyle {
    match s
    case Pending => StatusStyle("Pending", Amber)
    case Processing => StatusStyle("Processing", Blue)
    case Completed => StatusStyle("Completed", Emerald)
    case Failed => StatusStyle("Failed", Rose)
  }

  const StatusTitles := ["Pending", "Processing", "Completed", "Failed"]

  /** The badge for a wire status: its own entry when known, the pending entry otherwise. */
  function StatusBadge(status: string): (style: StatusStyle)
    ensures ParseStatus(status).Some? ==> style == StatusConfig(ParseStatus(status).value)
    ensures ParseStatus(status).None? ==> style == StatusConfig(Pending)
    ensures style.title in StatusTitles
  {
    match ParseStatus(status)
    case Some(s) => StatusConfig(s)
    case None => StatusConfig(Pending)
  }

  /** The four statuses get four different labels, each the capitalised wire name. */
  lemma StatusTitlesDistinct(a: CheckStatus, b: CheckStatus)
    ensures a != b ==> StatusBadge(StatusName(a)).title != StatusBadge(StatusName(b)).title
    ensures StatusBadge(StatusName(a)).title == StatusTitles[match a case Pending => 0 case Processing => 1
                                                                  case Completed => 2 case Failed => 3]
  {
    StatusNameRoundTrip(a);
    StatusNameRoundTrip(b);
  }

  datatype FileIcon = PdfIcon | DocIcon | DocxIcon | TxtIcon

  /** `check.fileId?.fileType || 'txt'`: the key the icon is looked up by. */
  function IconKey(fileId: Option<FileInfo>): string {
    if fileId.Some? && TruthyText(fileId.value.fileType) then fileId.value.fileType.value else "txt"
  }

  /** `FILE_TYPE_ICONS[key] || FILE_TYPE_ICONS.txt`: missing and unknown types get the text icon. */
  function FileIconFor(fileId: Option<FileInfo>): (icon: FileIcon)
    ensures icon != TxtIcon <==> IconKey(fileId) in ["pdf", "doc", "docx"]
    ensures fileId.None? || !TruthyText(fileId.value.fileType) ==> icon == TxtIcon
    ensures IconKey(fileId) == "pdf" ==> icon == PdfIcon
    ensures IconKey(fileId) == "doc" ==> icon == DocIcon
    ensures IconKey(fileId) == "docx" ==> icon == DocxIcon
  {
    var key := IconKey(fileId);
    if key == "pdf" then PdfIcon
    else if key == "doc" then DocIcon
    else if key == "docx" then DocxIcon
    else TxtIcon
  }

  /** `check.fileId?.originalFileName || 'Unknown File'`. */
  function FileNameText(fileId: Option<FileInfo>): (text: string)
    ensures text != ""
    ensures fileId.Some? && TruthyText(fileId.value.originalFileName) ==> text == fileId.value.originalFileName.value
    ensures fileId.None? || !TruthyText(fileId.value.originalFileName) ==> text == "Unknown File"
  {
    if fileId.Some? && TruthyText(fileId.value.originalFileName) then fileId.value.originalFileName.value
    else "Unknown File"
  }

  /** ASCII upper case of one character. */
  function UpperChar(c: char): char {
    if 'a' <= c <= 'z' then (c as int - 32) as char else c
  }

  function AsciiUpper(s: string): (r: string)
    ensures |r| == |s|
    ensures forall i | 0 <= i < |s| :: r[i] == UpperChar(s[i])
  {
    seq(|s|, i requires 0 <= i < |s| => UpperChar(s[i]))
  }

  /** `check.fileId?.fileType?.toUpperCase() || 'FILE'`. */
  function FileTypeText(fileId: Option<FileInfo>): (text: string)
    ensures text != ""
    ensures fileId.Some? && TruthyText(fileId.value.fileType) ==> text == AsciiUpper(fileId.value.fileType.value)
    ensures fileId.None? || !TruthyText(fileId.value.fileType) ==> text == "FILE"
  {
    if fileId.Some? && TruthyText(fileId.value.fileType) then AsciiUpper(fileId.value.fileType.value)
    else "FILE"
  }

  /** `check.planType || 'standard'`. */
  function PlanText(planType: Option<string>): (text: string)
    ensures text != ""
    ensures TruthyText(planType) ==> text == planType.value
    ensures !TruthyText(planType) ==> text == "standard"
  {
    if TruthyText(planType) then planType.value else "standard"
  }

  /** The priority tag: its text, and whether it is highlighted. */
  datatype PriorityTag = PriorityTag(text: string, highlighted: bool)

  /** `check.priority && <tag>`: shown only when present, highlighted only for "high". */
  function PriorityView(priority: Option<string>): (tag: Option<PriorityTag>)
    ensures tag.Some? <==> TruthyText(priority)
    ensures tag.Some? ==> tag.value.text == priority.value
    ensures tag.Some? ==> (tag.value.highlighted <==> priority.value == PriorityName(High))
  {
    if TruthyText(priority) then Some(PriorityTag(priority.value, ParsePriority(priority.value) == Some(High))) else None
  }

  /** What one card shows, apart from the formatted date and file size. */
  datatype CardView = CardView(
    href: string,
    icon: FileIcon,
    fileName: string,
    fileType: string,
    status: StatusStyle,
    plan: string,
    priority: Option<PriorityTag>)

  /** The whole card: it links to the check's detail page and never shows an empty name, type, status or plan. */
  function Render(check: CheckListItem): (view: CardView)
    ensures view.href == "/check/" + check.checkId
    ensures view.fileName != "" && view.fileType != "" && view.plan != ""
    ensures view.status.title in StatusTitles
    ensures view.icon == TxtIcon || (check.fileId.Some? && TruthyText(check.fileId.value.fileType))
  {
    CardView(
      "/check/" + check.checkId,
      FileIconFor(check.fileId),
      FileNameText(check.fileId),
      FileTypeText(check.fileId),
      StatusBadge(check.status),
      PlanText(check.planType),
      PriorityView(check.priority))
  }
}
