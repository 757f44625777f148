/** Token kinds and the keyword tables of the AgentFile lexer. Positions are not modelled. */
module Tokens {
  datatype TokenType =
    | EOF | ILLEGAL | NEWLINE | COMMENT
    | IDENT | STRING | NUMBER | TRUE | FALSE
    | ASSIGN | PLUS | EQ | NEQ | DOT | COMMA
    | LPAREN | RPAREN | LBRACE | RBRACE | LBRACKET | RBRACKET | COLON
    | KW_AGENT | KW_EXECUTABLE | KW_CONFIG | KW_ENV | KW_REPO | KW_BRANCH | KW_GIT_CREDENTIAL
    | KW_MCP | KW_SKILLS | KW_SETUP | KW_ON | KW_OFF | KW_OPTIONAL | KW_REMOVE | KW_MODE
    | KW_USE_ENV_BUNDLE | KW_USE_CONFIG_BUNDLE | KW_PROMPT | KW_PROMPT_POSITION
    | KW_CAPABILITY | KW_KNOWLEDGE
    | KW_BOOL | KW_STRING | KW_NUMBER | KW_SECRET | KW_TEXT | KW_SELECT
    | KW_ARG | KW_FILE | KW_MKDIR | KW_WHEN | KW_IF | KW_ELSE | KW_FOR | KW_IN
    | KW_AND | KW_OR | KW_NOT
    | KW_PREPEND | KW_APPEND | KW_NONE
    | HEREDOC_START | HEREDOC_BODY

  datatype Token = Token(typ: TokenType, literal: string)

  const DECLARATION_KEYWORDS: map<string, TokenType> := map[
    "AGENT" := KW_AGENT, "EXECUTABLE" := KW_EXECUTABLE, "CONFIG" := KW_CONFIG, "ENV" := KW_ENV,
    "REPO" := KW_REPO, "BRANCH" := KW_BRANCH, "GIT_CREDENTIAL" := KW_GIT_CREDENTIAL, "MCP" := KW_MCP,
    "SKILLS" := KW_SKILLS, "SETUP" := KW_SETUP, "ON" := KW_ON, "OFF" := KW_OFF,
    "OPTIONAL" := KW_OPTIONAL, "REMOVE" := KW_REMOVE, "MODE" := KW_MODE,
    "USE_ENV_BUNDLE" := KW_USE_ENV_BUNDLE, "USE_CONFIG_BUNDLE" := KW_USE_CONFIG_BUNDLE,
    "PROMPT" := KW_PROMPT, "PROMPT_POSITION" := KW_PROMPT_POSITION, "CAPABILITY" := KW_CAPABILITY,
    "KNOWLEDGE" := KW_KNOWLEDGE, "BOOL" := KW_BOOL, "STRING" := KW_STRING, "NUMBER" := KW_NUMBER,
    "SECRET" := KW_SECRET, "TEXT" := KW_TEXT, "SELECT" := KW_SELECT
  ]

  const BUILD_KEYWORDS: map<string, TokenType> := map[
    "arg" := KW_ARG, "file" := KW_FILE, "mkdir" := KW_MKDIR, "when" := KW_WHEN, "if" := KW_IF,
    "else" := KW_ELSE, "for" := KW_FOR, "in" := KW_IN, "and" := KW_AND, "or" := KW_OR,
    "not" := KW_NOT, "true" := TRUE, "false" := FALSE, "prepend" := KW_PREPEND,
    "append" := KW_APPEND, "none" := KW_NONE
  ]

  function LookupIdent(ident: string): TokenType {
    if ident in DECLARATION_KEYWORDS then DECLARATION_KEYWORDS[ident]
    else if ident in BUILD_KEYWORDS then BUILD_KEYWORDS[ident]
    else IDENT
  }
}
