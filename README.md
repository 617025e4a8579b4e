# PushPlus WeChat MCP server — Dafny model

This project models the `/mcp` endpoint of the RikkaHub MCP server (`rikkahub_mcp_server.py`).
The endpoint is a JSON-RPC 2.0 handler over HTTP. It exposes one tool, `send_wechat_message`,
which sends a WeChat notification through the PushPlus delivery service.

- `wrappers.dfy` (module `Wrappers`): the `Option` type.
- `pyjson.dfy` (module `PyJson`): decoded JSON values as Python holds them, plus the Python
  behaviour the handler depends on. That covers truthiness (`not data`), membership
  (`'jsonrpc' in data` on a dict, list or str), `dict.get` and its `AttributeError` on
  anything that is not a dict, `str()` as f-strings use it, and the text of each exception.
- `mcp.dfy` (module `Mcp`): `Respond`, the endpoint as a pure function. It maps one request,
  and the outcome of the push call that request may make, to three things: the response
  (HTTP status, JSON body, the headers the handler sets), the session it opens, and the push
  request it sends. The branches it separates into functions are argument defaulting, push
  result classification, `tools/call` and the POST dispatch.
- `server.dfy` (module `McpServer`): the class `Server`. It holds the module-level `sessions`
  table, and its `Handle` method applies `Respond` to that table. `Replay` runs a sequence of
  requests against the table and carries the lemmas about the table's lifetime.

Things the handler gets from outside become parameters:
- `Body` is what `request.get_json()` returns: a decoded value, or the text of the exception
  it raised.
- `freshId` stands for `uuid.uuid4()`.
- `now` stands for `datetime.now().isoformat()`.
- `PushOutcome` is what the PushPlus call produced: the decoded reply, or the text of the
  exception from `requests.get`/`r.json()`.
- `token` is `PUSHPLUS_TOKEN`.

Behaviour worth knowing:
- A `tools/call` result has no `isError` flag.
- DELETE removes no session. Every GET, HEAD and DELETE answers `{"status": "ok"}` with HTTP 200.
- The -32601 message is the bare "Method not found".
- The -32603 message is `str(e)` with no prefix.
- Error responses and GET/HEAD/DELETE responses carry no `Access-Control-Allow-Origin` header.
- There is no `/health` route and no lock around the session table.

## Model

| member | source | states |
|---|---|---|
| `PyJson.DictGet` | rikkahub_mcp_server.py:36-38 | `d.get(key, default)` raises AttributeError naming the type exactly when `d` is not a dict. Otherwise it gives the stored value when the key is present and the default when it is absent. |
| `PyJson.Contains` | rikkahub_mcp_server.py:33 | `'jsonrpc' in data` is key membership on a dict, element membership on a list and substring search on a str. On None, bool and int it raises TypeError "argument of type … is not iterable". |
| `PyJson.PyStr` | rikkahub_mcp_server.py:93 | The f-string rendering of a value: a str is itself, None is "None", a bool is "True" or "False", and an int is its decimal digits, which read back as the number. |
| `PyJson.FindUnique` | rikkahub_mcp_server.py:36-38 | In a dict as `json.loads` builds it (no repeated key), the value a lookup finds is the value stored under that key. |
| `Mcp.PreflightHeaders` | rikkahub_mcp_server.py:22-27 | The OPTIONS answer has exactly three headers: origin `*`, methods `GET, POST, DELETE, OPTIONS`, and allowed headers ending in `Mcp-Session-Id`. |
| `Mcp.ToolsListResult` | rikkahub_mcp_server.py:58-78 | `tools/list` lists exactly one tool, `send_wechat_message`. Its description is "给猫猫发送微信推送消息". Its object schema has the string properties `title` ("标题") and `content` ("内容"), and `required` is `["content"]`. |
| `Mcp.Arguments` | rikkahub_mcp_server.py:87-88 | A missing `title` becomes "来自知厌的消息" and a missing `content` becomes "". A present value, even None or a non-string, passes through unchanged. Arguments that are not a dict raise. |
| `Mcp.Report` | rikkahub_mcp_server.py:90-95 | A dict reply with code 200 gives "发送成功: " plus the content sent. Any other dict reply gives "发送失败: " plus its `msg`. An exception, or a reply that is not a dict, gives "发送出错: " plus the exception text. |
| `Mcp.ReportRoundTrip` | rikkahub_mcp_server.py:90-95 | The three reports are mutually exclusive and exhaustive: the prefix of any report identifies which of the three outcomes produced it. |
| `Mcp.CallTool` | rikkahub_mcp_server.py:81-105 | `tools/call` raises exactly when `params` is not a dict, or when the tool is known and its `arguments` are not a dict. It pushes iff the tool name is `send_wechat_message`; otherwise it answers -32601 with HTTP 404 and the id echoed. The push carries the server's token, the defaulted title and content, the PushPlus URL, template `html` and timeout 10. The answer is 200 with one text block and the `Access-Control-Allow-Origin: *` header, for every push outcome. |
| `Mcp.Respond` | rikkahub_mcp_server.py:19-113 | Non-POST methods answer 200 `{"status": "ok"}` and change nothing (OPTIONS adds the CORS headers). HTTP 400 (-32600, null id) occurs iff the body is falsy or lacks "jsonrpc". HTTP 404 (-32601, id echoed) occurs iff the method or tool is unknown. HTTP 500 (-32603, null id) occurs iff handling raises: an unreadable body, a truthy bool or int body, a list or str holding "jsonrpc", non-dict `params` in `tools/call`, or non-dict `arguments` for the known tool. The message is the exception's text, and no header is set. Exactly `initialize` opens a session: the fresh id, echoed in `Mcp-Session-Id`. `tools/list` returns the single descriptor. Only a `tools/call` of the known tool pushes, and it always answers a result with the origin header. |
| `Mcp.CallAlwaysAnswers` | rikkahub_mcp_server.py:85-103 | A well-formed call of `send_wechat_message` sends exactly the push built from the defaulted arguments, the PushPlus URL, template `html` and timeout 10. It answers 200 with a one-block text result, for every push outcome. |
| `McpServer.Server.constructor` | rikkahub_mcp_server.py:17 | The session table starts empty. |
| `McpServer.Server.Handle` | rikkahub_mcp_server.py:41-55 | The response and push are those of `Respond`, and the new table is `Register` applied to the old one, so the `Replay` lemmas describe this method. Only `initialize` changes the table, storing the fresh id with its timestamp, and returns that id in `Mcp-Session-Id`. When the id is new, the table gains exactly that key and every old entry is unchanged. All other requests leave the table unchanged. |
| `McpServer.ReplayKeys` | rikkahub_mcp_server.py:41-43 | After any sequence of requests, the table's keys are its original keys plus the ids drawn by the `initialize` requests. No request removes a session. |
| `McpServer.ReplayCount` | rikkahub_mcp_server.py:41-43 | When the drawn ids are distinct and new, the table grows by exactly one entry per `initialize`. |
| `McpServer.ReplayKeepsSessions` | rikkahub_mcp_server.py:41-43 | An existing session keeps its record through any later requests that do not draw its id. |

## Left out

- Flask routing and `jsonify`: responses are datatypes, not serialised HTTP. The constant `"jsonrpc": "2.0"` member and the `Content-Type` header Flask adds are not represented.
- HTTP methods other than OPTIONS, POST, GET, HEAD and DELETE are refused by Flask before the handler runs, so they are not modelled. HEAD reaches the handler because Flask adds it to every route that lists GET, and is answered like GET. Flask's removal of the body from a HEAD answer is not modelled.
- The outbound `requests.get` to PushPlus (line 91) is network I/O. The model records the request it would send (`PushRequest`, including the 10-second timeout) and takes its outcome as the input `PushOutcome`.
- `uuid.uuid4()` and `datetime.now()` (lines 42-43) are the parameters `freshId` and `now`. Uniqueness of uuids is an assumption stated in `ReplayCount`'s requires, not a fact the model proves.
- `request.get_json()` depends on the Flask version: it either returns None or raises for a non-JSON body. `Body` admits both: `Parsed(JNull)` or `Unreadable(text)`.
- The `/` route (lines 115-117), the `__main__` start-up (lines 119-123) and the environment lookup of `PUSHPLUS_TOKEN` (line 14) are left out. The token is a constructor parameter.
- Concurrency: Flask may serve requests in parallel, and the source takes no lock around `sessions`. The model handles one request at a time.
- JSON floats are not modelled. `Json` numbers are integers, so `0.0` as a falsy body and `200.0 == 200` for a reply code are not captured.
- `PyJson.PyStr`: for a list or dict, Python's repr escapes non-printable non-ASCII characters in strings. The model escapes only backslash, the quote, and ASCII control characters.
- `PyJson.Contains`: the TypeError text follows Python up to 3.13. Python 3.14 words it "is not a container or iterable".
- `Mcp.Respond`: for non-dict `arguments` passed to the known tool, the contract states the 500 status, the -32603 code and the null id but not the message text. That text is stated by `Arguments` and `PyJson.DictGet`.
- `Json` dicts may hold a key twice, which `json.loads` never produces. In that case `Find` returns the first match while Python keeps the last value. `FindUnique` states the lookup only for dicts with distinct keys, the kind the decoder builds.
- The scheduled daily pushes and the model-provider adapters in `自动定时推送/auto_push.py` are a separate script. They are not part of the `/mcp` endpoint modelled here.
