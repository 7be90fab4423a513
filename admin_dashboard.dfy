/** The administrator's dashboard (admin-frontend/src/pages/AdminDashboard.jsx):
    order status counters, the mapping of spreadsheet rows to products to
    upload, their preview and the save request. */
module AdminDashboard {
  import opened Wrappers
  import opened Text
  import opened Seqs
  import opened Records

  // ------------------------------------------------------------ counters

  /** The four status counters shown on the dashboard. */
  datatype OrderStats = OrderStats(pendingPayment: nat, pendingShipment: nat, pendingReceive: nat, completed: nat)

  function HasStatus(status: string): Order -> bool {
    (o: Order) => o.status == status
  }

  /** `orders.filter((order) => order.status === …).length` for each counter. */
  function Stats(orders: seq<Order>): (s: OrderStats)
    ensures s.pendingPayment == |Filter(orders, HasStatus(PendingPayment))|
    ensures s.pendingShipment == |Filter(orders, HasStatus(PendingShipment))|
    ensures s.pendingReceive == |Filter(orders, HasStatus(PendingReceipt))|
    ensures s.completed == |Filter(orders, HasStatus(Completed))|
    ensures s.pendingPayment == 0 <==> forall i :: 0 <= i < |orders| ==> orders[i].status != PendingPayment
    ensures s.pendingShipment == 0 <==> forall i :: 0 <= i < |orders| ==> orders[i].status != PendingShipment
    ensures s.pendingReceive == 0 <==> forall i :: 0 <= i < |orders| ==> orders[i].status != PendingReceipt
    ensures s.completed == 0 <==> forall i :: 0 <= i < |orders| ==> orders[i].status != Completed
    ensures s.pendingPayment <= |orders| && s.pendingShipment <= |orders| && s.pendingReceive <= |orders| && s.completed <= |orders|
  {
    CountZero(orders, HasStatus(PendingPayment));
    CountZero(orders, HasStatus(PendingShipment));
    CountZero(orders, HasStatus(PendingReceipt));
    CountZero(orders, HasStatus(Completed));
    OrderStats(
      Count(orders, HasStatus(PendingPayment)),
      Count(orders, HasStatus(PendingShipment)),
      Count(orders, HasStatus(PendingReceipt)),
      Count(orders, HasStatus(Completed)))
  }

  function Counted(o: Order): bool {
    o.status in {PendingPayment, PendingShipment, PendingReceipt, Completed}
  }

  /** An order counts in at most one counter, so the counters add up to the
      number of orders with one of the four statuses, which is at most the
      number of orders; an order awaiting pickup counts in none. */
  lemma StatsPartition(orders: seq<Order>)
    ensures var s := Stats(orders);
      s.pendingPayment + s.pendingShipment + s.pendingReceive + s.completed == Count(orders, Counted)
      && Count(orders, Counted) <= |orders|
    ensures forall o: Order :: o.status == PendingPickup ==> !Counted(o)
  {
    StatusesDistinct();
    var p1, p2 := HasStatus(PendingPayment), HasStatus(PendingShipment);
    var p3, p4 := HasStatus(PendingReceipt), HasStatus(Completed);
    var p12 := (o: Order) => p1(o) || p2(o);
    var p123 := (o: Order) => p12(o) || p3(o);
    CountDisjoint(orders, p1, p2, p12);
    CountDisjoint(orders, p12, p3, p123);
    CountDisjoint(orders, p123, p4, Counted);
  }

  // ------------------------------------------------------------ upload rows

  /** A spreadsheet row as `sheet_to_json(sheet, { defval: "" })` gives it:
      every column of the template under its Chinese header or its English
      name, "" for an empty cell. */
  datatype SheetRow = SheetRow(
    nameZh: string, name: string,
    categoryZh: string, category: string,
    priceZh: string, price: string,
    imageZh: string, imageUrl: string,
    tagsZh: string, tags: string)

  /** A product waiting to be uploaded. `price` is the text `Number(…)` reads,
      "0" when both price columns are empty. */
  datatype Upload = Upload(id: string, name: string, category: string, price: string, imageUrl: string, tags: string)

  /** The row at position `index` of file `fileName`. */
  function MapRow(fileName: string, index: nat, row: SheetRow): (u: Upload)
    ensures u.id == fileName + "-" + IntToString(index)
    ensures u.name == Or(row.nameZh, row.name) && u.category == Or(row.categoryZh, row.category)
    ensures u.price == Or(row.priceZh, Or(row.price, "0"))
    ensures u.imageUrl == Or(row.imageZh, row.imageUrl) && u.tags == Or(row.tagsZh, row.tags)
  {
    Upload(
      fileName + "-" + IntToString(index),
      Or(Or(row.nameZh, row.name), ""),
      Or(Or(row.categoryZh, row.category), ""),
      Or(row.priceZh, Or(row.price, "0")),
      Or(Or(row.imageZh, row.imageUrl), ""),
      Or(Or(row.tagsZh, row.tags), ""))
  }

  /** `rows.map((row, index) => …)` */
  function MapRows(fileName: string, rows: seq<SheetRow>): (r: seq<Upload>)
    ensures |r| == |rows|
    ensures forall i :: 0 <= i < |rows| ==> r[i] == MapRow(fileName, i, rows[i])
  {
    seq(|rows|, i requires 0 <= i < |rows| => MapRow(fileName, i, rows[i]))
  }

  /** The ids of the mapped rows are pairwise distinct. */
  lemma MappedIdsDistinct(fileName: string, rows: seq<SheetRow>)
    ensures forall i, j :: 0 <= i < j < |rows| ==> MapRows(fileName, rows)[i].id != MapRows(fileName, rows)[j].id
  {
    var m := MapRows(fileName, rows);
    forall i, j | 0 <= i < j < |rows|
      ensures m[i].id != m[j].id
    {
      if m[i].id == m[j].id {
        var p := fileName + "-";
        assert m[i].id == p + IntToString(i) && m[j].id == p + IntToString(j);
        assert IntToString(i) == m[i].id[|p|..] == m[j].id[|p|..] == IntToString(j);
        IntToStringInjective(i, j);
      }
    }
  }

  function IsValid(u: Upload): bool {
    u.name != "" && u.category != ""
  }

  /** `mapped.filter((item) => item.name && item.category)` */
  function ValidUploads(mapped: seq<Upload>): (r: seq<Upload>)
    ensures IsSubsequence(r, mapped)
    ensures forall i :: 0 <= i < |r| ==> r[i].name != "" && r[i].category != ""
    ensures forall i :: 0 <= i < |mapped| && mapped[i].name != "" && mapped[i].category != "" ==> mapped[i] in r
    ensures forall u :: multiset(r)[u] == if u.name != "" && u.category != "" then multiset(mapped)[u] else 0
  {
    FilterIsSubsequence(mapped, IsValid);
    FilterMultiset(mapped, IsValid);
    Filter(mapped, IsValid)
  }

  /** `uploadedProducts.slice(0, 5)` */
  function PreviewRows(uploads: seq<Upload>): (r: seq<Upload>)
    ensures |r| == if |uploads| < 5 then |uploads| else 5
    ensures forall i :: 0 <= i < |r| ==> r[i] == uploads[i]
  {
    if |uploads| <= 5 then uploads else uploads[..5]
  }

  /** A product as sent in the body of the bulk upload: without its id. */
  datatype ProductPayload = ProductPayload(name: string, category: string, price: string, imageUrl: string, tags: string)

  function Strip(u: Upload): ProductPayload {
    ProductPayload(u.name, u.category, u.price, u.imageUrl, u.tags)
  }

  /** The `products` of the save request: every upload, in order, without its id. */
  function Payload(uploads: seq<Upload>): (r: seq<ProductPayload>)
    ensures |r| == |uploads|
    ensures forall i :: 0 <= i < |uploads| ==>
      r[i].name == uploads[i].name && r[i].category == uploads[i].category && r[i].price == uploads[i].price
      && r[i].imageUrl == uploads[i].imageUrl && r[i].tags == uploads[i].tags
  {
    if uploads == [] then [] else [Strip(uploads[0])] + Payload(uploads[1..])
  }

  /** A file picked in the upload input: its name and, when the library could
      read it, its rows (`None` when parsing failed). */
  datatype PickedFile = PickedFile(name: string, rows: Option<seq<SheetRow>>)

  const NoValidRows := "未识别到商品名称与类别，请检查模板字段。"
  const ParseFailed := "解析失败，请确认上传的是xlsx文件。"
  const NothingToSave := "请先上传包含商品信息的xlsx文件。"
  const SaveFailed := "保存失败，请稍后重试。"

  /** `已成功保存 ${n} 个商品` */
  function SavedMessage(n: nat): string {
    "已成功保存 " + IntToString(n) + " 个商品"
  }

  /** The upload state of the dashboard. */
  class UploadPanel {
    var uploadedProducts: seq<Upload>
    var uploadError: string
    var saveMessage: string
    var uploadLoading: bool

    constructor()
      ensures uploadedProducts == [] && uploadError == "" && saveMessage == "" && !uploadLoading
    {
      uploadedProducts := [];
      uploadError := "";
      saveMessage := "";
      uploadLoading := false;
    }

    /** `handleFileChange`: no file changes nothing; a file that cannot be
        parsed records the parse error and keeps the previous uploads;
        otherwise the valid mapped rows become the uploads, or, when there
        is none, the uploads are emptied and an error is shown. */
    method HandleFileChange(file: Option<PickedFile>)
      modifies this
      ensures file.None? ==>
        uploadedProducts == old(uploadedProducts) && uploadError == old(uploadError) && saveMessage == old(saveMessage)
      ensures file.Some? ==> saveMessage == ""
      ensures file.Some? && file.value.rows.None? ==> uploadError == ParseFailed && uploadedProducts == old(uploadedProducts)
      ensures file.Some? && file.value.rows.Some? ==>
        var valid := ValidUploads(MapRows(file.value.name, file.value.rows.value));
        uploadedProducts == valid && uploadError == (if valid == [] then NoValidRows else "")
      ensures uploadLoading == old(uploadLoading)
    {
      if file.None? {
        return;
      }
      uploadError := "";
      saveMessage := "";
      match file.value.rows {
        case None =>
          uploadError := ParseFailed;
        case Some(rows) =>
          var mapped := MapRows(file.value.name, rows);
          var valid := ValidUploads(mapped);
          if |valid| == 0 {
            uploadError := NoValidRows;
            uploadedProducts := [];
            return;
          }
          uploadedProducts := valid;
      }
    }

    /** `handleSaveProducts`, with the outcome of the request given: without
        uploads it only records an error and sends nothing; otherwise it
        sends every upload without its id and reports the outcome. */
    method HandleSaveProducts(succeeded: bool) returns (sent: Option<seq<ProductPayload>>)
      modifies this
      ensures sent.None? <==> old(uploadedProducts) == []
      ensures sent.None? ==>
        uploadError == NothingToSave && saveMessage == old(saveMessage) && uploadLoading == old(uploadLoading)
      ensures sent.Some? ==>
        sent.value == Payload(uploadedProducts) && !uploadLoading
        && (succeeded ==> saveMessage == SavedMessage(|uploadedProducts|) && uploadError == "")
        && (!succeeded ==> saveMessage == "" && uploadError == SaveFailed)
      ensures uploadedProducts == old(uploadedProducts)
    {
      if |uploadedProducts| == 0 {
        uploadError := NothingToSave;
        return None;
      }
      uploadLoading := true;
      uploadError := "";
      saveMessage := "";
      sent := Some(Payload(uploadedProducts));
      if succeeded {
        saveMessage := SavedMessage(|uploadedProducts|);
      } else {
        uploadError := SaveFailed;
      }
      uploadLoading := false;
    }
  }
}
