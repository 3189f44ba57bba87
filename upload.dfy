/**
 * The upload hook: the file validator with its options and defaults, the single and batch
 * uploads with their busy flag and progress, and the file address resolver.
 */
module Upload {
  import opened Common
  import opened Text

  /** A picked file: its size in bytes and its MIME type. */
  datatype FileInfo = FileInfo(size: int, mimeType: string)

  const MiB := 1024 * 1024
  const DefaultMaxSize := 5 * MiB
  const DefaultTypes := ["image/jpeg", "image/jpg", "image/png", "image/gif", "image/webp"]

  datatype FileError = TypeNotAllowed | TooLarge

  /** validateFile: the type is checked first, then the size; a file of exactly the limit passes. */
  function ValidateFile(f: FileInfo, maxSize: int, allowedTypes: seq<string>): (r: Option<FileError>)
    ensures r.None? <==> f.mimeType in allowedTypes && f.size <= maxSize
    ensures r == Some(TypeNotAllowed) <==> f.mimeType !in allowedTypes
    ensures r == Some(TooLarge) <==> f.mimeType in allowedTypes && f.size > maxSize
  {
    if f.mimeType !in allowedTypes then Some(TypeNotAllowed)
    else if f.size > maxSize then Some(TooLarge)
    else None
  }

  /** The toast of a refused file; the limit is printed in whole megabytes. */
  function FileErrorMessage(e: FileError, maxSize: int, allowedTypes: seq<string>): string {
    match e
    case TypeNotAllowed => "Tipo de arquivo não permitido. Tipos aceitos: " + JoinWith(allowedTypes, ", ")
    case TooLarge => "Arquivo muito grande. Tamanho máximo: " + IntToString(maxSize / MiB) + "MB"
  }

  /** With the defaults: a 5 MiB JPEG passes, one byte more does not, and the size toast reads 5MB. */
  lemma DefaultLimits(t: string)
    requires t in DefaultTypes
    ensures ValidateFile(FileInfo(5 * 1024 * 1024, t), DefaultMaxSize, DefaultTypes).None?
    ensures ValidateFile(FileInfo(5 * 1024 * 1024 + 1, t), DefaultMaxSize, DefaultTypes) == Some(TooLarge)
    ensures FileErrorMessage(TooLarge, DefaultMaxSize, DefaultTypes) == "Arquivo muito grande. Tamanho máximo: 5MB"
  {
    assert DefaultMaxSize / MiB == 5;
    assert IntToString(5) == "5";
  }

  /** The type toast is its prefix followed by the allowed types joined with ", ", and names every one of them. */
  lemma TypeMessageListsTypes(allowedTypes: seq<string>)
    ensures var prefix := "Tipo de arquivo não permitido. Tipos aceitos: ";
      var m := FileErrorMessage(TypeNotAllowed, 0, allowedTypes);
      m == prefix + JoinWith(allowedTypes, ", ")
      && (forall t :: t in allowedTypes ==> exists k :: OccursAt(m, t, k))
      && (allowedTypes != [] ==> prefix <= m && allowedTypes[0] <= m[|prefix|..])
  {
    var prefix := "Tipo de arquivo não permitido. Tipos aceitos: ";
    var m := FileErrorMessage(TypeNotAllowed, 0, allowedTypes);
    forall t | t in allowedTypes ensures exists k :: OccursAt(m, t, k) {
      var i :| 0 <= i < |allowedTypes| && allowedTypes[i] == t;
      JoinWithHoldsParts(allowedTypes, ", ", i);
      var k :| OccursAt(JoinWith(allowedTypes, ", "), t, k);
      OccursAfter(prefix, JoinWith(allowedTypes, ", "), t, k);
    }
    if allowedTypes != [] {
      assert m[|prefix|..] == JoinWith(allowedTypes, ", ");
    }
  }

  /** How the upload request ended: an HTTP error status, a thrown network error, or a JSON reply. */
  datatype Response<T> = HttpError(status: int) | NetworkError(error: string) | Reply(success: bool, message: Option<string>, value: T)

  datatype Uploaded<T> = UploadOk(value: T) | UploadError(message: string)

  /**
   * The try block after the request: a bad status throws "Erro HTTP: <status>", an unsuccessful
   * reply throws its message or "Erro no upload", and a successful one yields its value.
   */
  function Outcome<T>(response: Response<T>): (r: Uploaded<T>)
    ensures r.UploadOk? <==> response.Reply? && response.success
    ensures r.UploadOk? ==> r.value == response.value
    ensures response.HttpError? ==> r.message == "Erro HTTP: " + IntToString(response.status)
    ensures response.Reply? && !response.success ==> r.message != "" && (Truthy(response.message) ==> r.message == response.message.value)
    ensures response.Reply? && !response.success && !Truthy(response.message) ==> r.message == "Erro no upload"
    ensures response.NetworkError? ==> r == UploadError(response.error)
  {
    match response
    case HttpError(status) => UploadError("Erro HTTP: " + IntToString(status))
    case NetworkError(m) => UploadError(m)
    case Reply(success, message, value) => if success then UploadOk(value) else UploadError(OrElse(message, "Erro no upload"))
  }

  /** The status is readable back from the HTTP error text. */
  lemma HttpErrorNamesStatus<T>(response: Response<T>)
    requires response.HttpError?
    ensures var m := Outcome(response).message;
      |m| > |"Erro HTTP: "| && ParseInt(m[|"Erro HTTP: "|..]) == response.status
  {
    var m := Outcome(response).message;
    assert m[|"Erro HTTP: "|..] == IntToString(response.status);
    IntToStringRoundTrip(response.status);
  }

  /** One use of the hook: its options, its busy flag and its progress. */
  class Uploader {
    var isUploading: bool
    var uploadProgress: int
    const maxSize: int
    const allowedTypes: seq<string>

    /** The options default only when they are not given. */
    constructor(maxSizeOption: Option<int>, typesOption: Option<seq<string>>)
      ensures !isUploading && uploadProgress == 0
      ensures maxSize == if maxSizeOption.Some? then maxSizeOption.value else DefaultMaxSize
      ensures allowedTypes == if typesOption.Some? then typesOption.value else DefaultTypes
    {
      isUploading := false;
      uploadProgress := 0;
      maxSize := if maxSizeOption.Some? then maxSizeOption.value else DefaultMaxSize;
      allowedTypes := if typesOption.Some? then typesOption.value else DefaultTypes;
    }

    /**
     * uploadFile: an invalid file shows its toast and throws "Arquivo inválido" before any request
     * and before the flags are touched. Otherwise the request is made, a failure is toasted, and
     * the flags end reset whatever the outcome.
     */
    method UploadFile(f: FileInfo, response: Response<string>) returns (r: Uploaded<string>, requested: bool, toasts: seq<Toast>)
      modifies this
      ensures requested <==> ValidateFile(f, maxSize, allowedTypes).None?
      ensures !requested ==>
        r == UploadError("Arquivo inválido")
        && toasts == [ErrorToast(FileErrorMessage(ValidateFile(f, maxSize, allowedTypes).value, maxSize, allowedTypes))]
        && isUploading == old(isUploading) && uploadProgress == old(uploadProgress)
      ensures requested ==>
        r == Outcome(response) && !isUploading && uploadProgress == 0
        && toasts == (if r.UploadError? then [ErrorToast(r.message)] else [])
    {
      var err := ValidateFile(f, maxSize, allowedTypes);
      if err.Some? {
        toasts := [ErrorToast(FileErrorMessage(err.value, maxSize, allowedTypes))];
        r := UploadError("Arquivo inválido");
        requested := false;
        return;
      }
      isUploading := true;
      uploadProgress := 0;
      requested := true;
      r := Outcome(response);
      toasts := if r.UploadError? then [ErrorToast(r.message)] else [];
      isUploading := false;
      uploadProgress := 0;
    }

    /**
     * The validation loop of uploadMultipleFiles: each valid file is appended to the form buffer;
     * the first invalid one stops the loop, with only the files before it appended.
     */
    method AppendValidated(files: seq<FileInfo>) returns (buffer: seq<FileInfo>, invalid: Option<nat>)
      ensures invalid.None? ==> buffer == files
      ensures invalid.Some? ==>
        invalid.value < |files| && buffer == files[..invalid.value]
        && ValidateFile(files[invalid.value], maxSize, allowedTypes).Some?
      ensures forall k :: 0 <= k < |buffer| ==> ValidateFile(buffer[k], maxSize, allowedTypes).None?
    {
      buffer := [];
      invalid := None;
      for i := 0 to |files|
        invariant buffer == files[..i]
        invariant forall k :: 0 <= k < i ==> ValidateFile(files[k], maxSize, allowedTypes).None?
      {
        if ValidateFile(files[i], maxSize, allowedTypes).Some? {
          invalid := Some(i);
          return;
        }
        buffer := buffer + [files[i]];
      }
    }

    /**
     * uploadMultipleFiles: the flags are set first; an invalid file aborts with no request (its
     * own toast, then "Um ou mais arquivos são inválidos"); otherwise every file is sent. The
     * flags end reset whatever the outcome.
     */
    method UploadMultipleFiles(files: seq<FileInfo>, response: Response<seq<string>>)
      returns (r: Uploaded<seq<string>>, request: Option<seq<FileInfo>>, toasts: seq<Toast>)
      modifies this
      ensures !isUploading && uploadProgress == 0
      ensures request.None? <==> exists k :: 0 <= k < |files| && ValidateFile(files[k], maxSize, allowedTypes).Some?
      ensures request.Some? ==>
        request.value == files && r == Outcome(response)
        && toasts == (if r.UploadError? then [ErrorToast(r.message)] else [])
      ensures request.None? ==>
        r == UploadError("Um ou mais arquivos são inválidos")
        && |toasts| == 2 && toasts[1] == ErrorToast("Um ou mais arquivos são inválidos")
    ensures request.None? ==>
      exists k :: 0 <= k < |files| && ValidateFile(files[k], maxSize, allowedTypes).Some?
        && (forall j :: 0 <= j < k ==> ValidateFile(files[j], maxSize, allowedTypes).None?)
        && toasts[0] == ErrorToast(FileErrorMessage(ValidateFile(files[k], maxSize, allowedTypes).value, maxSize, allowedTypes))
    {
      isUploading := true;
      uploadProgress := 0;
      var buffer, invalid := AppendValidated(files);
      if invalid.Some? {
        var k := invalid.value;
        assert forall j :: 0 <= j < k ==> files[j] == buffer[j];
        var e := ValidateFile(files[k], maxSize, allowedTypes).value;
        r := UploadError("Um ou mais arquivos são inválidos");
        toasts := [ErrorToast(FileErrorMessage(e, maxSize, allowedTypes)), ErrorToast(r.message)];
        request := None;
      } else {
        request := Some(buffer);
        r := Outcome(response);
        toasts := if r.UploadError? then [ErrorToast(r.message)] else [];
      }
      isUploading := false;
      uploadProgress := 0;
    }
  }

  /**
   * getFileUrl: no address for a missing or empty path, a path starting with "http" as it is,
   * otherwise the API address (or the local default) + "/uploads/" + the path.
   */
  function GetFileUrl(filePath: Option<string>, apiUrl: Option<string>): (r: Option<string>)
    ensures r.None? <==> !Truthy(filePath)
    ensures Truthy(filePath) && "http" <= filePath.value ==> r == filePath
    ensures Truthy(filePath) && !("http" <= filePath.value) ==>
      r == Some(OrElse(apiUrl, "http://localhost:8000") + "/uploads/" + filePath.value)
  {
    if !Truthy(filePath) then None
    else if "http" <= filePath.value then filePath
    else Some(OrElse(apiUrl, "http://localhost:8000") + "/uploads/" + filePath.value)
  }

  /**
   * Resolving is idempotent whenever the base address is itself an http address (as the local
   * default is): a resolved address resolves to itself.
   */
  lemma FileUrlIdempotent(filePath: Option<string>, apiUrl: Option<string>)
    requires "http" <= OrElse(apiUrl, "http://localhost:8000")
    requires GetFileUrl(filePath, apiUrl).Some?
    ensures GetFileUrl(GetFileUrl(filePath, apiUrl), apiUrl) == GetFileUrl(filePath, apiUrl)
  {
    var u := GetFileUrl(filePath, apiUrl).value;
    var base := OrElse(apiUrl, "http://localhost:8000");
    if !("http" <= filePath.value) {
      assert u == base + "/uploads/" + filePath.value;
      assert u[..4] == base[..4];
    }
  }
}
