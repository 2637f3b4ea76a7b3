/** Editing one page inside the blob (services/file.go). */
module PageEdit {
  import opened Domain
  import opened GoStrings
  import opened PageCodec

  datatype File = File(userId: Id, fileType: FileType, status: Status, extractedText: string)

  datatype Fault = NotFound | Forbidden | NotPDF | NotProcessed | PageNotFound | Database
  datatype Result<+T> = Success(value: T) | Failure(fault: Fault)

  /** The first entry with this page number, or -1. */
  function FirstNumbered(pages: seq<PageText>, k: GoInt): (i: int)
    ensures -1 <= i < |pages|
    ensures i >= 0 ==> pages[i].page == k
    ensures forall j | 0 <= j < |pages| && (i < 0 || j < i) :: pages[j].page != k
  {
    if pages == [] then -1
    else if pages[0].page == k then 0
    else
      var i := FirstNumbered(pages[1..], k);
      if i < 0 then -1 else i + 1
  }

  function WithText(pages: seq<PageText>, i: nat, text: string): seq<PageText>
    requires i < |pages|
  {
    pages[i := PageText(pages[i].page, text)]
  }

  /** The blob after editing page `k`; a page that is not there leaves it alone. */
  function Edit(text: string, k: GoInt, newText: string): string {
    var i := FirstNumbered(Parse(text), k);
    if i < 0 then text else Encode(WithText(Parse(text), i, newText))
  }

  /** Why an operation on a file's text is refused, if it is; `read` says whether the row can be read. */
  function Refusal(files: map<Id, File>, user: Id, id: Id, read: bool): Result<File> {
    if !read then Failure(Database)
    else if id !in files then Failure(NotFound)
    else if files[id].userId != user then Failure(Forbidden)
    else if files[id].fileType != PDF then Failure(NotPDF)
    else if files[id].status != Done then Failure(NotProcessed)
    else Success(files[id])
  }

  class FileService {
    var files: map<Id, File>

    constructor ()
      ensures files == map[]
    {
      files := map[];
    }

    method GetByID(user: Id, id: Id, read: bool) returns (r: Result<File>)
      ensures r.Success? ==> id in files && r.value == files[id] && files[id].userId == user
      ensures r == Failure(Database) <==> !read
      ensures r == Failure(NotFound) <==> read && id !in files
      ensures r == Failure(Forbidden) <==> read && id in files && files[id].userId != user
      ensures r.Failure? ==> r.fault in {Database, NotFound, Forbidden}
    {
      if !read {
        return Failure(Database);
      }
      if id !in files {
        return Failure(NotFound);
      }
      if files[id].userId != user {
        return Failure(Forbidden);
      }
      return Success(files[id]);
    }

    method GetPages(user: Id, id: Id, read: bool) returns (r: Result<seq<PageText>>)
      ensures Refusal(files, user, id, read).Failure? ==> r == Failure(Refusal(files, user, id, read).fault)
      ensures r.Success? <==>
                read && id in files && files[id].userId == user && files[id].fileType == PDF && files[id].status == Done
      ensures r.Success? ==> r.value == Parse(files[id].extractedText)
    {
      var found := GetByID(user, id, read);
      match found {
        case Failure(f) => return Failure(f);
        case Success(file) =>
          if file.fileType != PDF {
            return Failure(NotPDF);
          }
          if file.status != Done {
            return Failure(NotProcessed);
          }
          var pages := ParsePages(file.extractedText);
          return Success(pages);
      }
    }

    /** `read` and `saved` say whether the database read and the write succeed. */
    method UpdatePage(user: Id, id: Id, pageNum: GoInt, newText: string, read: bool, saved: bool)
      returns (r: Result<()>)
      modifies this
      ensures Refusal(old(files), user, id, read).Failure? ==> r == Failure(Refusal(old(files), user, id, read).fault)
      ensures Refusal(old(files), user, id, read).Success? ==>
                var i := FirstNumbered(Parse(old(files)[id].extractedText), pageNum);
                r == if i < 0 then Failure(PageNotFound) else if saved then Success(()) else Failure(Database)
      ensures r.Success? <==>
                && read && id in old(files) && old(files)[id].userId == user
                && old(files)[id].fileType == PDF && old(files)[id].status == Done
                && (exists p :: p in Parse(old(files)[id].extractedText) && p.page == pageNum) && saved
      ensures r.Failure? ==> files == old(files)
      ensures r.Success? ==>
                id in old(files) &&
                var file := old(files)[id];
                files == old(files)[id := file.(extractedText := Edit(file.extractedText, pageNum, newText))]
    {
      var found := GetByID(user, id, read);
      if found.Failure? {
        return Failure(found.fault);
      }
      var file := found.value;
      if file.fileType != PDF {
        return Failure(NotPDF);
      }
      if file.status != Done {
        return Failure(NotProcessed);
      }
      var parsed := ParsePages(file.extractedText);
      var pages, updated := parsed, false;
      var i := 0;
      while i < |pages|
        invariant 0 <= i <= |pages| && pages == parsed && !updated
        invariant forall j | 0 <= j < i :: parsed[j].page != pageNum
      {
        if pages[i].page == pageNum {
          pages := pages[i := PageText(pages[i].page, newText)];
          updated := true;
          break;
        }
        i := i + 1;
      }
      if !updated {
        return Failure(PageNotFound);
      }
      assert FirstNumbered(parsed, pageNum) == i;
      var text := JoinPages(pages);
      if !saved {
        return Failure(Database);
      }
      files := files[id := file.(extractedText := text)];
      return Success(());
    }
  }
}
